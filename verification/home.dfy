/**
 * The visitor management dashboard: a search box that filters the visitor
 * table and a delete button per visitor.
 */
module Home {
  import opened Common

  /** A row of `/visitors`; any text field may be missing. */
  datatype Record = Record(
    id: int,
    nik: Option<string>,
    full_name: Option<string>,
    company_name: Option<string>,
    born_date: Option<string>)

  const Deleted: string := "Visitor deleted successfully."
  const DeleteFailed: string := "Failed to delete visitor."

  /**
   * The search test: a missing field reads as "", the NIK and the birth date
   * must contain the keyword as typed, the name and the company contain it
   * after both sides are lower-cased.
   */
  predicate Matches(v: Record, keyword: string)
  {
    var nik := OrElse(v.nik, "");
    var fullName := Lower(OrElse(v.full_name, ""));
    var companyName := Lower(OrElse(v.company_name, ""));
    var bornDate := OrElse(v.born_date, "");
    || Contains(nik, keyword)
    || Contains(fullName, Lower(keyword))
    || Contains(companyName, Lower(keyword))
    || Contains(bornDate, keyword)
  }

  /** `filteredVisitors`: the matching visitors, in table order. */
  function FilteredVisitors(visitors: seq<Record>, keyword: string): (shown: seq<Record>)
    ensures IsSubseq(shown, visitors)
    ensures forall i :: 0 <= i < |shown| ==> Matches(shown[i], keyword)
    ensures forall i :: 0 <= i < |visitors| && Matches(visitors[i], keyword) ==> visitors[i] in shown
    ensures forall v :: multiset(shown)[v] == if Matches(v, keyword) then multiset(visitors)[v] else 0
  {
    Filter(visitors, (v: Record) => Matches(v, keyword))
  }

  /** An empty search box shows every visitor. */
  lemma EmptyKeywordKeepsAll(visitors: seq<Record>)
    ensures FilteredVisitors(visitors, "") == visitors
  {
    forall i | 0 <= i < |visitors|
      ensures Matches(visitors[i], "")
    {
      ContainsEmpty(OrElse(visitors[i].nik, ""));
    }
    FilterKeepsAll(visitors, (v: Record) => Matches(v, ""));
  }

  /** Searching a list that is two lists shows the matches of each, in order. */
  lemma FilterSplits(a: seq<Record>, b: seq<Record>, keyword: string)
    ensures FilteredVisitors(a + b, keyword) == FilteredVisitors(a, keyword) + FilteredVisitors(b, keyword)
  {
    FilterAppend(a, b, (v: Record) => Matches(v, keyword));
  }

  /** For a visitor known only by name, the case of the keyword does not matter. */
  lemma NameIgnoresCase(v: Record, keyword: string)
    requires v.nik.None? && v.born_date.None?
    ensures Matches(v, keyword) <==> Matches(v, Lower(keyword))
  {
    LowerIdempotent(keyword);
    if keyword != [] {
      ContainsLonger("", keyword);
      ContainsLonger("", Lower(keyword));
    }
  }

  /**
   * For a visitor with neither name nor company, a keyword matches exactly
   * when the NIK or the birth date contains it as typed, without lower-casing.
   */
  lemma NikAndBirthDateMatchedAsTyped(v: Record, keyword: string)
    requires v.full_name.None? && v.company_name.None?
    ensures Matches(v, keyword) <==> Contains(OrElse(v.nik, ""), keyword) || Contains(OrElse(v.born_date, ""), keyword)
  {
    if keyword == "" {
      ContainsEmpty(OrElse(v.nik, ""));
    } else {
      assert Lower("") == "";
      ContainsLonger("", Lower(keyword));
    }
  }

  /** Hence the NIK is case-sensitive: "ab12" does not find NIK "AB12", which "AB12" does. */
  lemma NikIsCaseSensitive()
    ensures Matches(Record(1, Some("AB12"), None, None, None), "AB12")
    ensures !Matches(Record(1, Some("AB12"), None, None, None), "ab12")
  {
    var v := Record(1, Some("AB12"), None, None, None);
    NikAndBirthDateMatchedAsTyped(v, "AB12");
    NikAndBirthDateMatchedAsTyped(v, "ab12");
    assert StartsWith("AB12", "AB12");
    assert !StartsWith("AB12", "ab12");
    assert "AB12"[1..] == "B12";
    ContainsLonger("B12", "ab12");
    ContainsLonger("", "ab12");
  }

  /** `visitors.filter(visitor => visitor.id !== id)` */
  function WithoutId(visitors: seq<Record>, id: int): (rest: seq<Record>)
    ensures IsSubseq(rest, visitors)
    ensures forall i :: 0 <= i < |rest| ==> rest[i].id != id
    ensures forall i :: 0 <= i < |visitors| && visitors[i].id != id ==> visitors[i] in rest
    ensures forall v :: multiset(rest)[v] == if v.id != id then multiset(visitors)[v] else 0
  {
    Filter(visitors, (v: Record) => v.id != id)
  }

  /** Deleting an id that is no longer listed changes nothing. */
  lemma WithoutIdIdempotent(visitors: seq<Record>, id: int)
    ensures WithoutId(WithoutId(visitors, id), id) == WithoutId(visitors, id)
  {
    var once := WithoutId(visitors, id);
    FilterKeepsAll(once, (v: Record) => v.id != id);
  }

  /** The dashboard's state. */
  class Dashboard {
    var visitors: seq<Record>
    var searchKeyword: string
    var alertMessage: Option<string>
    var alertType: AlertType
    var openSnackbar: bool

    constructor ()
      ensures visitors == [] && searchKeyword == "" && alertMessage == None && alertType == Unset && !openSnackbar
    {
      visitors := [];
      searchKeyword := "";
      alertMessage := None;
      alertType := Unset;
      openSnackbar := false;
    }

    /** The search box's `onChange`. */
    method SetSearchKeyword(keyword: string)
      modifies this`searchKeyword
      ensures searchKeyword == keyword
    {
      searchKeyword := keyword;
    }

    /**
     * handleDeleteVisitor. `deleted` tells whether the API delete succeeded:
     * then exactly the visitors with that id leave the list, otherwise the list
     * stays as it is; either way the snackbar opens with the outcome.
     */
    method HandleDeleteVisitor(id: int, deleted: bool)
      modifies this`visitors, this`alertMessage, this`alertType, this`openSnackbar
      ensures deleted ==> visitors == WithoutId(old(visitors), id) && alertType == Success && alertMessage == Some(Deleted)
      ensures !deleted ==> visitors == old(visitors) && alertType == Error && alertMessage == Some(DeleteFailed)
      ensures openSnackbar
    {
      if deleted {
        visitors := WithoutId(visitors, id);
        ShowAlert(Success, Deleted);
      } else {
        ShowAlert(Error, DeleteFailed);
      }
    }

    /** showAlert. */
    method ShowAlert(kind: AlertType, message: string)
      modifies this`alertMessage, this`alertType, this`openSnackbar
      ensures alertType == kind && alertMessage == Some(message) && openSnackbar
    {
      alertType := kind;
      alertMessage := Some(message);
      openSnackbar := true;
    }

    /** handleCloseSnackbar. */
    method CloseSnackbar()
      modifies this`alertMessage, this`openSnackbar
      ensures !openSnackbar && alertMessage == None
    {
      openSnackbar := false;
      alertMessage := None;
    }
  }
}
