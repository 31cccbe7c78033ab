/**
 * The `DisplayMessage` component: the confirmation shown under the camera
 * after a check-in or check-out, or nothing when the visitor or its
 * attendance record is missing.
 */
module DisplayMessage {
  import opened Common

  datatype Colour = Green | Blue

  /** What the component renders; times are shown as the API sent them. */
  datatype MessageView = MessageView(
    heading: string,
    colour: Colour,
    fullName: string,
    nik: string,
    company: string,
    checkInTime: string,
    checkOutTime: Option<string>)

  const CheckInLead: string := "Check-In Successful, Hello "
  const CheckInTail: string := ", Welcome to Room 1"
  const CheckOutLead: string := "Check-Out Successful, See you next time "
  const CheckOutTail: string := " !"

  /** The check-in heading: greeting, the name, the room. */
  function CheckInMessage(fullName: string): string
  {
    CheckInLead + fullName + CheckInTail
  }

  /** The check-out heading: farewell, the name, an exclamation mark. */
  function CheckOutMessage(fullName: string): string
  {
    CheckOutLead + fullName + CheckOutTail
  }

  /** The visitor's name as it appears inside a heading of either kind. */
  function NameInHeading(heading: string, isClockIn: bool): (name: string)
  {
    var lead := if isClockIn then CheckInLead else CheckOutLead;
    var tail := if isClockIn then CheckInTail else CheckOutTail;
    if |lead| + |tail| <= |heading| then heading[|lead|..|heading| - |tail|] else heading
  }

  function Render(v: Visitor, isClockIn: bool): (view: MessageView)
    requires v.attendance.Some?
  {
    MessageView(
      if isClockIn then CheckInMessage(v.fullName) else CheckOutMessage(v.fullName),
      if isClockIn then Green else Blue,
      v.fullName, v.nik, v.companyName,
      v.attendance.value.checkIn,
      if Truthy(v.attendance.value.checkOut) then v.attendance.value.checkOut else None)
  }

  /**
   * `DisplayMessage({ visitorData, isClockIn })`: nothing without a visitor and
   * its attendance; otherwise a green check-in or blue check-out message naming
   * the visitor, with a check-out line only when `check_out` is truthy.
   */
  function Show(visitorData: Option<Visitor>, isClockIn: bool): (view: Option<MessageView>)
    ensures view.None? <==> visitorData.None? || visitorData.value.attendance.None?
    ensures view.Some? ==>
      && (view.value.colour == Green <==> isClockIn)
      && view.value.heading == (if isClockIn then CheckInMessage(visitorData.value.fullName) else CheckOutMessage(visitorData.value.fullName))
      && NameInHeading(view.value.heading, isClockIn) == visitorData.value.fullName
      && view.value.fullName == visitorData.value.fullName
      && view.value.nik == visitorData.value.nik
      && view.value.company == visitorData.value.companyName
      && view.value.checkInTime == visitorData.value.attendance.value.checkIn
      && (view.value.checkOutTime.Some? <==> Truthy(visitorData.value.attendance.value.checkOut))
      && (view.value.checkOutTime.Some? ==> view.value.checkOutTime == visitorData.value.attendance.value.checkOut)
  {
    if visitorData.None? || visitorData.value.attendance.None? then None
    else
      var view := Render(visitorData.value, isClockIn);
      HeadingNameRoundTrip(visitorData.value.fullName, isClockIn);
      Some(view)
  }

  /** The name can be read back from either heading. */
  lemma HeadingNameRoundTrip(fullName: string, isClockIn: bool)
    ensures NameInHeading(if isClockIn then CheckInMessage(fullName) else CheckOutMessage(fullName), isClockIn) == fullName
  {
    var lead := if isClockIn then CheckInLead else CheckOutLead;
    var tail := if isClockIn then CheckInTail else CheckOutTail;
    var heading := lead + fullName + tail;
    assert heading[|lead|..|heading| - |tail|] == fullName;
  }

  /** A check-in heading never reads as a check-out heading, whatever the two names. */
  lemma HeadingsDiffer(a: string, b: string)
    ensures CheckInMessage(a) != CheckOutMessage(b)
  {
    assert CheckInMessage(a)[6] == 'I';
    assert CheckOutMessage(b)[6] == 'O';
  }
}
