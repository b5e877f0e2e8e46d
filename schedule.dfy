/**
 * The scheduling page: the handler's two guards, the local date-time string
 * built from the date and time inputs, the payload, and the form reset after
 * an accepted request. The webhook's reply is an input.
 */
module Schedule {
  import opened Wrappers
  import Text
  import Instances

  datatype Payload = Payload(instanceId: string, listId: string, message: string, scheduledFor: string)

  datatype ScheduleError = NoInstance | MissingFields

  /** What `fetch` gave: it threw, or it answered with some HTTP status. */
  datatype Response = NetworkError | Responded(ok: bool)

  datatype ScheduleResult = Rejected(error: ScheduleError) | Scheduled(payload: Payload) | ScheduleFailed(payload: Payload)

  /** The guards of `handleSchedule`: first an instance, then all four fields together
      (a blank message counts as missing). */
  function Validate(selected: Option<Instances.Instance>, message: string, selectedList: string,
                    date: string, time: string): (r: Option<ScheduleError>)
    ensures r == Some(NoInstance) <==> selected.None?
    ensures r == Some(MissingFields) <==>
              selected.Some? && (Text.Trim(message) == "" || selectedList == "" || date == "" || time == "")
    ensures r == None <==>
              selected.Some? && Text.Trim(message) != "" && selectedList != "" && date != "" && time != ""
  {
    if selected.None? then Some(NoInstance)
    else if Text.Trim(message) == "" || selectedList == "" || date == "" || time == "" then Some(MissingFields)
    else None
  }

  /** The instance error exactly when none is selected, then one error exactly when the
      message is blank or the list, date or time is empty. */
  lemma GuardsInOrder(selected: Option<Instances.Instance>, message: string, selectedList: string,
                      date: string, time: string)
    ensures Validate(selected, message, selectedList, date, time) == Some(NoInstance) <==> selected.None?
    ensures Validate(selected, message, selectedList, date, time) == Some(MissingFields) <==>
              selected.Some? && (Text.IsBlank(message) || selectedList == "" || date == "" || time == "")
    ensures Validate(selected, message, selectedList, date, time) == None <==>
              selected.Some? && !Text.IsBlank(message) && selectedList != "" && date != "" && time != ""
  {
    Text.TrimEmptyIffBlank(message);
  }

  /** `${scheduledDate}T${scheduledTime}:00`: a local date-time with no zone offset. */
  function ScheduledFor(date: string, time: string): (r: string)
    ensures |r| == |date| + |time| + 4
    ensures r[..|date|] == date && r[|date|] == 'T'
    ensures r[|date| + 1..|r| - 3] == time && r[|r| - 3..] == ":00"
  {
    date + "T" + time + ":00"
  }

  /** A date without a 'T' (as the date input yields) is read back as everything before the
      first 'T'. */
  lemma {:induction false} ScheduledForSplitsBack(date: string, time: string)
    requires 'T' !in date
    ensures Text.Split(ScheduledFor(date, time), 'T')[0] == date
  {
    var s := ScheduledFor(date, time);
    var p := Text.Split(s, 'T')[0];
    Text.FirstPieceOfSplit(s, 'T');
    assert |p| == |date|;
  }

  /** With neither field holding a 'T' (as the date and time inputs yield), the timestamp
      splits at 'T' into exactly the date and the time with its seconds. */
  lemma ScheduledForSplitsIntoDateAndTime(date: string, time: string)
    requires 'T' !in date && 'T' !in time
    ensures Text.Split(ScheduledFor(date, time), 'T') == [date, time + ":00"]
  {
    assert ScheduledFor(date, time) == date + ['T'] + (time + ":00");
    Text.SplitAfterPiece(date, 'T', time + ":00");
    Text.SplitWithoutSep(time + ":00", 'T');
  }

  /** The schedule button: enabled while nothing is in flight and an instance is selected. */
  predicate ScheduleEnabled(isScheduling: bool, selected: Option<Instances.Instance>)
  {
    !isScheduling && selected.Some?
  }

  /** With the button enabled only the field guard can reject the request. */
  lemma EnabledButtonPassesInstanceGuard(isScheduling: bool, selected: Option<Instances.Instance>,
                                         message: string, selectedList: string, date: string, time: string)
    requires ScheduleEnabled(isScheduling, selected)
    ensures Validate(selected, message, selectedList, date, time) != Some(NoInstance)
  {
  }

  class ScheduleForm {
    var selectedList: string
    var message: string
    var scheduledDate: string
    var scheduledTime: string
    var isScheduling: bool

    constructor ()
      ensures selectedList == "" && message == "" && scheduledDate == "" && scheduledTime == ""
      ensures !isScheduling
    {
      selectedList := "";
      message := "";
      scheduledDate := "";
      scheduledTime := "";
      isScheduling := false;
    }

    /** The request body: the list, the trimmed message and the combined date-time. */
    function BuildPayload(instance: Instances.Instance): Payload
      reads this
    {
      Payload(instance.id, selectedList, Text.Trim(message), ScheduledFor(scheduledDate, scheduledTime))
    }

    /** `handleSchedule`. A failed guard reports its error and changes nothing. An `ok`
        reply clears the four fields; any other reply, or a network error, leaves them as
        they were. Scheduling is over either way. */
    method HandleSchedule(selected: Option<Instances.Instance>, response: Response) returns (result: ScheduleResult)
      modifies this
      ensures Validate(selected, old(message), old(selectedList), old(scheduledDate), old(scheduledTime)).Some? ==>
                && result == Rejected(Validate(selected, old(message), old(selectedList), old(scheduledDate), old(scheduledTime)).value)
                && unchanged(this)
      ensures Validate(selected, old(message), old(selectedList), old(scheduledDate), old(scheduledTime)).None? ==>
                && !isScheduling
                && (response == Responded(true) ==>
                      && result == Scheduled(old(BuildPayload(selected.value)))
                      && message == "" && selectedList == "" && scheduledDate == "" && scheduledTime == "")
                && (response != Responded(true) ==>
                      && result == ScheduleFailed(old(BuildPayload(selected.value)))
                      && message == old(message) && selectedList == old(selectedList)
                      && scheduledDate == old(scheduledDate) && scheduledTime == old(scheduledTime))
    {
      var check := Validate(selected, message, selectedList, scheduledDate, scheduledTime);
      if check.Some? {
        return Rejected(check.value);
      }
      var payload := BuildPayload(selected.value);
      isScheduling := true;
      if response == Responded(true) {
        message := "";
        selectedList := "";
        scheduledDate := "";
        scheduledTime := "";
        result := Scheduled(payload);
      } else {
        result := ScheduleFailed(payload);
      }
      isScheduling := false;
    }
  }
}
