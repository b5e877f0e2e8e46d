/**
 * The mass-dispatch page: the send handler with its three guards, the payload
 * that carries the attachment's URL and kind, the form reset after an
 * accepted dispatch, the AI enhancement of the message, and the enablement
 * of the send button. The webhook's reply is an input.
 */
module Dispatch {
  import opened Wrappers
  import Text
  import opened MessageComposer
  import Instances

  const DefaultBatchSize: int := 50
  const DefaultMinInterval: int := 5
  const DefaultMaxInterval: int := 15

  datatype Payload = Payload(
    instanceId: string,
    message: string,
    mediaUrl: Option<string>,
    mediaType: Option<MediaKind>,
    listId: string,
    batchSize: int,
    minInterval: int,
    maxInterval: int,
    randomInterval: bool)

  datatype SendError = NoInstance | EmptyMessage | NoListSelected

  /** What `fetch` gave: it threw, or it answered with some HTTP status. */
  datatype Response = NetworkError | Responded(ok: bool)

  datatype SendResult = Rejected(error: SendError) | Started(payload: Payload) | SendFailed(payload: Payload)

  /** What the enhancer gave: `fetch` or `response.json()` threw, or a JSON body whose
      `improved_text` field may be missing. */
  datatype EnhanceResponse = EnhanceFailed | EnhanceBody(improvedText: Option<string>)

  /** The guards of `handleSend`, in order: an instance, a non-blank message, a list. */
  function Validate(selected: Option<Instances.Instance>, message: string, selectedList: string): (r: Option<SendError>)
    ensures r == Some(NoInstance) <==> selected.None?
    ensures r == Some(EmptyMessage) <==> selected.Some? && Text.Trim(message) == ""
    ensures r == Some(NoListSelected) <==> selected.Some? && Text.Trim(message) != "" && selectedList == ""
    ensures r == None <==> selected.Some? && Text.Trim(message) != "" && selectedList != ""
  {
    if selected.None? then Some(NoInstance)
    else if Text.Trim(message) == "" then Some(EmptyMessage)
    else if selectedList == "" then Some(NoListSelected)
    else None
  }

  /** The instance error exactly when none is selected, then the message error exactly for a
      blank message, then the list error exactly when no list is chosen. */
  lemma GuardsInOrder(selected: Option<Instances.Instance>, message: string, selectedList: string)
    ensures Validate(selected, message, selectedList) == Some(NoInstance) <==> selected.None?
    ensures Validate(selected, message, selectedList) == Some(EmptyMessage) <==>
              selected.Some? && Text.IsBlank(message)
    ensures Validate(selected, message, selectedList) == Some(NoListSelected) <==>
              selected.Some? && !Text.IsBlank(message) && selectedList == ""
    ensures Validate(selected, message, selectedList) == None <==>
              selected.Some? && !Text.IsBlank(message) && selectedList != ""
  {
    Text.TrimEmptyIffBlank(message);
  }

  /** `setMessage(result.improved_text || message)`: a present, non-empty improved text
      replaces the message; otherwise, and when the request fails, the message stays. */
  function Enhanced(message: string, response: EnhanceResponse): (r: string)
    ensures r == message || (response.EnhanceBody? && response.improvedText == Some(r) && r != "")
    ensures response.EnhanceFailed? ==> r == message
    ensures response.EnhanceBody? && response.improvedText.Some? && response.improvedText.value != "" ==>
              r == response.improvedText.value
  {
    if response.EnhanceBody? && response.improvedText.Some? && response.improvedText.value != ""
    then response.improvedText.value
    else message
  }

  /** The enhancement never empties a message that had text. */
  lemma EnhancedKeepsText(message: string, response: EnhanceResponse)
    requires message != ""
    ensures Enhanced(message, response) != ""
  {
  }

  /** The send button: enabled only while nothing is being sent and the selected instance
      is connected. */
  predicate SendEnabled(isSending: bool, selected: Option<Instances.Instance>)
  {
    !isSending && selected.Some? && selected.value.status == "connected"
  }

  /** With the button enabled, the instance guard of the handler cannot fire; the handler
      itself does not look at the instance's status. */
  lemma EnabledButtonPassesInstanceGuard(isSending: bool, selected: Option<Instances.Instance>,
                                         message: string, selectedList: string)
    requires SendEnabled(isSending, selected)
    ensures Validate(selected, message, selectedList) != Some(NoInstance)
    ensures Validate(selected, message, selectedList) == None <==>
              !Text.IsBlank(message) && selectedList != ""
  {
    GuardsInOrder(selected, message, selectedList);
  }

  class DispatchForm {
    var message: string
    var attachedMedia: Option<Media>
    var selectedList: string
    var batchSize: int
    var minInterval: int
    var maxInterval: int
    var randomInterval: bool
    var isSending: bool

    constructor ()
      ensures message == "" && attachedMedia == None && selectedList == ""
      ensures batchSize == DefaultBatchSize && minInterval == DefaultMinInterval
      ensures maxInterval == DefaultMaxInterval && randomInterval && !isSending
    {
      message := "";
      attachedMedia := None;
      selectedList := "";
      batchSize := DefaultBatchSize;
      minInterval := DefaultMinInterval;
      maxInterval := DefaultMaxInterval;
      randomInterval := true;
      isSending := false;
    }

    /** The pacing settings, which no dispatch resets. */
    function Pacing(): (int, int, int, bool)
      reads this
    {
      (batchSize, minInterval, maxInterval, randomInterval)
    }

    /** The request body: the trimmed message, the attachment's URL and kind when there is
        one, and the list and pacing settings as they stand. */
    function BuildPayload(instance: Instances.Instance): Payload
      reads this
    {
      Payload(instance.id, Text.Trim(message),
              if attachedMedia.Some? then Some(attachedMedia.value.url) else None,
              if attachedMedia.Some? then Some(attachedMedia.value.kind) else None,
              selectedList, batchSize, minInterval, maxInterval, randomInterval)
    }

    /** `onMediaAttach`, as wired to `setAttachedMedia`. */
    method AttachMedia(media: Media)
      modifies this`attachedMedia
      ensures attachedMedia == Some(media)
    {
      attachedMedia := Some(media);
    }

    /** `onMediaRemove`. */
    method RemoveMedia()
      modifies this`attachedMedia
      ensures attachedMedia == None
    {
      attachedMedia := None;
    }

    /** `handleAIEnhance`: the message becomes the enhanced text, or stays. */
    method HandleAIEnhance(response: EnhanceResponse)
      modifies this`message
      ensures message == Enhanced(old(message), response)
    {
      message := Enhanced(message, response);
    }

    /** `handleSend`. A failed guard reports its error and changes nothing. An `ok` reply
        clears message, attachment and list and keeps the pacing settings; any other reply,
        or a network error, leaves the form as it was. Sending is over either way. */
    method HandleSend(selected: Option<Instances.Instance>, response: Response) returns (result: SendResult)
      modifies this`message, this`attachedMedia, this`selectedList, this`isSending
      ensures Validate(selected, old(message), old(selectedList)).Some? ==>
                result == Rejected(Validate(selected, old(message), old(selectedList)).value) && unchanged(this)
      ensures Validate(selected, old(message), old(selectedList)).None? && response == Responded(true) ==>
                && result == Started(old(BuildPayload(selected.value)))
                && message == "" && attachedMedia == None && selectedList == ""
      ensures Validate(selected, old(message), old(selectedList)).None? && response != Responded(true) ==>
                && result == SendFailed(old(BuildPayload(selected.value)))
                && message == old(message) && attachedMedia == old(attachedMedia)
                && selectedList == old(selectedList)
      ensures Validate(selected, old(message), old(selectedList)).None? ==> !isSending
      ensures Pacing() == old(Pacing())
    {
      var check := Validate(selected, message, selectedList);
      if check.Some? {
        return Rejected(check.value);
      }
      var payload := BuildPayload(selected.value);
      isSending := true;
      if response == Responded(true) {
        message := "";
        attachedMedia := None;
        selectedList := "";
        result := Started(payload);
      } else {
        result := SendFailed(payload);
      }
      isSending := false;
    }
  }

  /** The attachment travels as its URL and kind, and only when one is attached. */
  lemma PayloadCarriesAttachment(form: DispatchForm, instance: Instances.Instance)
    ensures form.BuildPayload(instance).mediaUrl.Some? <==> form.attachedMedia.Some?
    ensures form.attachedMedia.Some? ==>
              && form.BuildPayload(instance).mediaUrl == Some(form.attachedMedia.value.url)
              && form.BuildPayload(instance).mediaType == Some(form.attachedMedia.value.kind)
    ensures form.BuildPayload(instance).instanceId == instance.id
  {
  }
}
