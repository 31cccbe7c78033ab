/**
 * The visitor monitoring page: the visitors of one day, fetched from the
 * "today" endpoint or the by-date endpoint, keeping only those who clocked in,
 * each shown with clock times, total time and a status.
 */
module VisitorMonitoring {
  import opened Common

  /** A row of the monitoring endpoints; the times may be missing. */
  datatype Record = Record(
    id: int,
    full_name: string,
    company_name: string,
    clock_in_time: Option<string>,
    clock_out_time: Option<string>,
    total_time: Option<string>)

  const TodayPath: string := "/visitor-monitoring/visitors-today"
  const ByDatePath: string := "/visitor-monitoring/visitors-by-date?date="
  const FetchFailed: string := "Failed to fetch visitors. Please try again later."
  const NoTime: string := "N/A"
  const StillVisiting: string := "Still visiting"
  const Left: string := "Left"

  /** The endpoint for `selectedDate`, given today's date in the same YYYY-MM-DD form. */
  function Endpoint(selectedDate: string, today: string): (path: string)
    ensures path == TodayPath <==> selectedDate == today
    ensures selectedDate != today ==> StartsWith(path, ByDatePath) && path[|ByDatePath|..] == selectedDate
  {
    if selectedDate == today then TodayPath else ByDatePath + selectedDate
  }

  /** Two different dates other than today are asked for at two different paths. */
  lemma EndpointInjective(d1: string, d2: string, today: string)
    requires d1 != today && d2 != today && d1 != d2
    ensures Endpoint(d1, today) != Endpoint(d2, today)
  {
    assert Endpoint(d1, today)[|ByDatePath|..] == d1;
    assert Endpoint(d2, today)[|ByDatePath|..] == d2;
  }

  /** `visitors.filter(visitor => visitor.clock_in_time)` */
  function ClockedIn(visitors: seq<Record>): (kept: seq<Record>)
    ensures IsSubseq(kept, visitors)
    ensures forall i :: 0 <= i < |kept| ==> Truthy(kept[i].clock_in_time)
    ensures forall i :: 0 <= i < |visitors| && Truthy(visitors[i].clock_in_time) ==> visitors[i] in kept
    ensures forall v :: multiset(kept)[v] == if Truthy(v.clock_in_time) then multiset(visitors)[v] else 0
  {
    Filter(visitors, (v: Record) => Truthy(v.clock_in_time))
  }

  /** Filtering again removes nothing more. */
  lemma ClockedInIdempotent(visitors: seq<Record>)
    ensures ClockedIn(ClockedIn(visitors)) == ClockedIn(visitors)
  {
    FilterKeepsAll(ClockedIn(visitors), (v: Record) => Truthy(v.clock_in_time));
  }

  /** One table row as displayed. */
  datatype Row = Row(fullName: string, company: string, clockIn: string, clockOut: string, totalTime: string, status: string)

  /**
   * A visitor's row: a missing clock-in reads "N/A", a missing clock-out or
   * total time reads "Still visiting", and the status is "Left" exactly when
   * the visitor has clocked out.
   */
  function RowOf(v: Record): (row: Row)
    ensures row.status == Left <==> Truthy(v.clock_out_time)
    ensures row.status == StillVisiting <==> !Truthy(v.clock_out_time)
    ensures Truthy(v.clock_in_time) ==> row.clockIn == v.clock_in_time.value
    ensures !Truthy(v.clock_in_time) ==> row.clockIn == NoTime
    ensures Truthy(v.clock_out_time) ==> row.clockOut == v.clock_out_time.value
    ensures !Truthy(v.clock_out_time) ==> row.clockOut == StillVisiting && row.status == row.clockOut
    ensures Truthy(v.total_time) ==> row.totalTime == v.total_time.value
    ensures !Truthy(v.total_time) ==> row.totalTime == StillVisiting
  {
    Row(v.full_name, v.company_name,
      OrElse(v.clock_in_time, NoTime),
      OrElse(v.clock_out_time, StillVisiting),
      OrElse(v.total_time, StillVisiting),
      if Truthy(v.clock_out_time) then Left else StillVisiting)
  }

  /** Every fetched visitor's row shows its own clock-in time, never "N/A". */
  lemma FetchedRowsShowClockIn(fetched: seq<Record>)
    ensures forall i :: 0 <= i < |ClockedIn(fetched)| ==>
      RowOf(ClockedIn(fetched)[i]).clockIn == ClockedIn(fetched)[i].clock_in_time.value
  {
  }

  /** The monitoring page's state. */
  class MonitoringPage {
    var date: string
    var visitors: seq<Record>
    var loading: bool
    var error: Option<string>

    /** Mounting on `today`, before the first fetch. */
    constructor (today: string)
      ensures date == today && visitors == [] && !loading && error == None
    {
      date := today;
      visitors := [];
      loading := false;
      error := None;
    }

    /**
     * fetchVisitors. `reply` is the visitor list the endpoint returned, or
     * `None` when the call or the reading of its `visitors` failed.
     */
    method FetchVisitors(selectedDate: string, today: string, reply: Option<seq<Record>>) returns (path: string)
      modifies this`visitors, this`loading, this`error
      ensures path == Endpoint(selectedDate, today)
      ensures reply.Some? ==> visitors == ClockedIn(reply.value) && error == None
      ensures reply.None? ==> visitors == old(visitors) && error == Some(FetchFailed)
      ensures !loading
    {
      loading := true;
      error := None;
      path := Endpoint(selectedDate, today);
      match reply {
        case Some(fetched) =>
          var validVisitors := ClockedIn(fetched);
          visitors := validVisitors;
        case None =>
          error := Some(FetchFailed);
      }
      loading := false;
    }

    /** Picking a date in the date field; the effect on `date` then fetches that day. */
    method ChangeDate(newDate: string, today: string, reply: Option<seq<Record>>) returns (path: string)
      modifies this
      ensures date == newDate
      ensures path == Endpoint(newDate, today)
      ensures reply.Some? ==> visitors == ClockedIn(reply.value) && error == None
      ensures reply.None? ==> visitors == old(visitors) && error == Some(FetchFailed)
      ensures !loading
    {
      date := newDate;
      path := FetchVisitors(date, today, reply);
    }
  }
}
