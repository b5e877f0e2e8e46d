/**
 * The standalone "ZapMessage Pro" composer: a form whose fields are state
 * cells, the photo and AI-suggestion callbacks, and the send handler with its
 * two guards, its payload and the reset of every field after a dispatch.
 * The webhook is called with `mode: 'no-cors'`, so only a thrown error counts
 * as a failure; its outcome and the current time are inputs.
 */
module ZapMessagePro {
  import opened Wrappers
  import Text

  const DefaultBatchSize: int := 50
  const DefaultMinInterval: int := 5
  const DefaultMaxInterval: int := 15

  datatype Payload = Payload(
    message: string,
    photoUrl: Option<string>,
    contactList: string,
    batchSize: int,
    minInterval: int,
    maxInterval: int,
    randomInterval: bool,
    timestamp: string)

  datatype SendError = EmptyMessage | NoListSelected

  datatype RequestOutcome = Delivered | NetworkError

  datatype SendResult = Rejected(error: SendError) | Sent(payload: Payload) | SendFailed(payload: Payload)

  /** The guards of `handleSendMessage`, in order: a message with some non-blank text,
      then a selected list. */
  function Validate(message: string, selectedList: string): (r: Option<SendError>)
    ensures r == Some(EmptyMessage) <==> Text.Trim(message) == ""
    ensures r == Some(NoListSelected) <==> Text.Trim(message) != "" && selectedList == ""
    ensures r == None <==> Text.Trim(message) != "" && selectedList != ""
  {
    if Text.Trim(message) == "" then Some(EmptyMessage)
    else if selectedList == "" then Some(NoListSelected)
    else None
  }

  /** The message error exactly for a whitespace-only message, then the list error exactly
      when no list is chosen. */
  lemma GuardsInOrder(message: string, selectedList: string)
    ensures Validate(message, selectedList) == Some(EmptyMessage) <==> Text.IsBlank(message)
    ensures Validate(message, selectedList) == Some(NoListSelected) <==> !Text.IsBlank(message) && selectedList == ""
    ensures Validate(message, selectedList) == None <==> !Text.IsBlank(message) && selectedList != ""
  {
    Text.TrimEmptyIffBlank(message);
  }

  class ZapMessageForm {
    var message: string
    var attachedPhoto: Option<string>
    var selectedList: string
    var batchSize: int
    var minInterval: int
    var maxInterval: int
    var randomInterval: bool
    var isPhotoModalOpen: bool
    var isAIModalOpen: bool
    var isSending: bool

    /** Every form field holds its initial value. */
    predicate FieldsAtDefaults()
      reads this
    {
      && message == "" && attachedPhoto == None && selectedList == ""
      && batchSize == DefaultBatchSize && minInterval == DefaultMinInterval
      && maxInterval == DefaultMaxInterval && randomInterval
    }

    /** The form fields as one value, to say which of them an event leaves alone. */
    function Fields(): (string, Option<string>, string, int, int, int, bool)
      reads this
    {
      (message, attachedPhoto, selectedList, batchSize, minInterval, maxInterval, randomInterval)
    }

    constructor ()
      ensures FieldsAtDefaults() && !isPhotoModalOpen && !isAIModalOpen && !isSending
    {
      message := "";
      attachedPhoto := None;
      selectedList := "";
      batchSize := DefaultBatchSize;
      minInterval := DefaultMinInterval;
      maxInterval := DefaultMaxInterval;
      randomInterval := true;
      isPhotoModalOpen := false;
      isAIModalOpen := false;
      isSending := false;
    }

    /** The request body: the trimmed message and every other field as it stands. */
    function BuildPayload(now: string): (p: Payload)
      reads this
    {
      Payload(Text.Trim(message), attachedPhoto, selectedList, batchSize, minInterval,
              maxInterval, randomInterval, now)
    }

    /** `handlePhotoUpload(url)`: attaches the photo and closes the photo dialog. */
    method HandlePhotoUpload(photoUrl: string)
      modifies this`attachedPhoto, this`isPhotoModalOpen
      ensures attachedPhoto == Some(photoUrl) && !isPhotoModalOpen
    {
      attachedPhoto := Some(photoUrl);
      isPhotoModalOpen := false;
    }

    /** `handleRemovePhoto`: the photo becomes null. */
    method HandleRemovePhoto()
      modifies this`attachedPhoto
      ensures attachedPhoto == None
    {
      attachedPhoto := None;
    }

    /** `handleAISuggestion(text)`: replaces the message wholesale and closes the AI dialog. */
    method HandleAISuggestion(suggestedText: string)
      modifies this`message, this`isAIModalOpen
      ensures message == suggestedText && !isAIModalOpen
    {
      message := suggestedText;
      isAIModalOpen := false;
    }

    /** `handleSendMessage`. A failed guard reports its error and changes nothing. Otherwise
        the payload is sent; after a dispatch every field is back at its default, after a
        network error the form is as it was, and sending is over either way. */
    method HandleSendMessage(now: string, outcome: RequestOutcome) returns (result: SendResult)
      modifies this`message, this`attachedPhoto, this`selectedList, this`batchSize,
               this`minInterval, this`maxInterval, this`randomInterval, this`isSending
      ensures Validate(old(message), old(selectedList)).Some? ==>
                result == Rejected(Validate(old(message), old(selectedList)).value) && unchanged(this)
      ensures Validate(old(message), old(selectedList)).None? && outcome == Delivered ==>
                result == Sent(old(BuildPayload(now))) && FieldsAtDefaults()
      ensures Validate(old(message), old(selectedList)).None? && outcome == NetworkError ==>
                result == SendFailed(old(BuildPayload(now))) && Fields() == old(Fields())
      ensures Validate(old(message), old(selectedList)).None? ==> !isSending
    {
      var check := Validate(message, selectedList);
      if check.Some? {
        return Rejected(check.value);
      }
      var payload := BuildPayload(now);
      isSending := true;
      if outcome == Delivered {
        message := "";
        attachedPhoto := None;
        selectedList := "";
        batchSize := DefaultBatchSize;
        minInterval := DefaultMinInterval;
        maxInterval := DefaultMaxInterval;
        randomInterval := true;
        result := Sent(payload);
      } else {
        result := SendFailed(payload);
      }
      isSending := false;
    }
  }

  /** The message that passes the guards reaches the webhook non-empty and without
      surrounding whitespace. */
  lemma SentMessageIsTrimmedAndNonEmpty(message: string, selectedList: string)
    requires Validate(message, selectedList).None?
    ensures Text.Trim(message) != ""
    ensures !Text.IsWhitespace(Text.Trim(message)[0])
    ensures !Text.IsWhitespace(Text.Trim(message)[|Text.Trim(message)| - 1])
  {
    Text.TrimEmptyIffBlank(message);
    Text.TrimIsFactor(message);
  }
}
