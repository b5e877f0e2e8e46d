/**
 * The instance registry (the `useInstances` hook): the WhatsApp instances the
 * backend lists, the selected one, and the last selection remembered in the
 * browser's local storage, which is modelled as an injected map.
 * Every remote call is replaced by its outcome, passed in as a parameter.
 */
module Instances {
  import opened Wrappers

  datatype Instance = Instance(id: string, name: string, phone: string, status: string)

  /** The local-storage key holding the id of the last selected instance. */
  const LastSelectedKey: string := "lastSelectedInstance"

  /** The instance-list request: it threw, answered with a non-ok status, or gave a body
      whose `instances` field may be missing. */
  datatype FetchResponse = FetchFailed | FetchNotOk | FetchBody(instances: Option<seq<Instance>>)

  /** The status request: it threw, or gave a body with a status. */
  datatype StatusResponse = StatusFailed | StatusBody(status: string)

  const LoadError: string := "Erro ao carregar instâncias"

  /** The status update `prev.map(...)`: instances with that id take the new status; the
      other instances, every other field, the length and the order stay as they were. */
  function WithStatus(instances: seq<Instance>, id: string, status: string): (r: seq<Instance>)
    ensures |r| == |instances|
    ensures forall i :: 0 <= i < |instances| ==>
              r[i].status == (if instances[i].id == id then status else instances[i].status)
    ensures forall i :: 0 <= i < |instances| ==> r[i].(status := instances[i].status) == instances[i]
  {
    seq(|instances|, i requires 0 <= i < |instances| =>
      if instances[i].id == id then instances[i].(status := status) else instances[i])
  }

  /** A later status for the same id overrides an earlier one. */
  lemma WithStatusLastWins(instances: seq<Instance>, id: string, first: string, second: string)
    ensures WithStatus(WithStatus(instances, id, first), id, second) == WithStatus(instances, id, second)
  {
  }

  /** `instances.find(i => i.id === id)`: the first instance with that id. */
  function FindById(instances: seq<Instance>, id: string): (r: Option<Instance>)
    ensures r.None? <==> forall i :: 0 <= i < |instances| ==> instances[i].id != id
    ensures r.Some? ==> exists k :: 0 <= k < |instances| && instances[k] == r.value
                                  && r.value.id == id
                                  && forall j :: 0 <= j < k ==> instances[j].id != id
  {
    if instances == [] then None
    else if instances[0].id == id then Some(instances[0])
    else
      var rest := FindById(instances[1..], id);
      if rest.Some? then
        var k :| 0 <= k < |instances[1..]| && instances[1..][k] == rest.value && rest.value.id == id
                 && forall j :: 0 <= j < k ==> instances[1..][j].id != id;
        assert instances[k + 1] == rest.value;
        rest
      else rest
  }

  /** `localStorage.getItem(key)` on the injected store. */
  function Lookup(store: map<string, string>, key: string): Option<string> {
    if key in store then Some(store[key]) else None
  }

  /** `data.instances || []` */
  function ListedInstances(body: Option<seq<Instance>>): (r: seq<Instance>)
    ensures body.None? ==> r == []
    ensures body.Some? ==> r == body.value
  {
    body.GetOr([])
  }

  /** The instance selected after loading: the stored last-used one when the store holds a
      non-empty id that some instance carries, otherwise the first instance; nothing for an
      empty list. */
  function InitialSelection(instances: seq<Instance>, lastUsedId: Option<string>): (r: Option<Instance>)
    ensures r.None? <==> |instances| == 0
    ensures r.Some? ==> r.value in instances
    ensures lastUsedId.Some? && lastUsedId.value != "" &&
            (exists i :: 0 <= i < |instances| && instances[i].id == lastUsedId.value) ==>
              r.Some? && r.value.id == lastUsedId.value && r == FindById(instances, lastUsedId.value)
    ensures |instances| > 0 &&
            (|| lastUsedId.None? || lastUsedId.value == ""
             || forall i :: 0 <= i < |instances| ==> instances[i].id != lastUsedId.value)
            ==> r == Some(instances[0])
  {
    var remembered := if lastUsedId.Some? && lastUsedId.value != "" then FindById(instances, lastUsedId.value) else None;
    if remembered.Some? then remembered
    else if |instances| > 0 then Some(instances[0])
    else None
  }

  datatype SelectionFailure = TypeErrorOnMissingInstances

  /** The selection expression as written: it reads `data.instances` itself, so a body without
      that field throws (`.find` or `[0]` of undefined) after the list was set to `[]`. */
  function InitialSelectionAsWritten(body: Option<seq<Instance>>, lastUsedId: Option<string>)
    : (r: Result<Option<Instance>, SelectionFailure>)
    ensures body.None? <==> r.Failure?
    ensures body.Some? ==> r == Success(InitialSelection(body.value, lastUsedId))
  {
    if body.None? then Failure(TypeErrorOnMissingInstances)
    else Success(InitialSelection(body.value, lastUsedId))
  }

  /** A body without `instances` makes the expression as written throw, although the list
      fallback `|| []` was meant to cover it; the corrected selection simply selects nothing. */
  lemma MissingInstancesField(lastUsedId: Option<string>)
    ensures InitialSelectionAsWritten(None, lastUsedId).Failure?
    ensures InitialSelection(ListedInstances(None), lastUsedId) == None
  {
  }

  class InstanceRegistry {
    var instances: seq<Instance>
    var selected: Option<Instance>
    var isLoading: bool
    var error: Option<string>
    /** The browser's local storage. */
    var store: map<string, string>

    constructor (store: map<string, string>)
      ensures instances == [] && selected == None && isLoading && error == None
      ensures this.store == store
    {
      instances := [];
      selected := None;
      isLoading := true;
      error := None;
      this.store := store;
    }

    /** The id of the selected instance. */
    function SelectedId(): Option<string>
      reads this
    {
      if selected.Some? then Some(selected.value.id) else None
    }

    /** `checkInstanceStatus(id)`. The selected instance is updated only when the selection
        seen by the calling render (`capturedSelectedId`) has that id; the update then applies
        to whatever is selected now. A failed request changes nothing. */
    method CheckInstanceStatus(id: string, response: StatusResponse, capturedSelectedId: Option<string>)
      modifies this`instances, this`selected
      ensures response.StatusFailed? ==> instances == old(instances) && selected == old(selected)
      ensures response.StatusBody? ==> instances == WithStatus(old(instances), id, response.status)
      ensures response.StatusBody? && capturedSelectedId == Some(id) && old(selected).Some? ==>
                selected == Some(old(selected).value.(status := response.status))
      ensures response.StatusBody? && (capturedSelectedId != Some(id) || old(selected).None?) ==>
                selected == old(selected)
    {
      if response.StatusBody? {
        instances := WithStatus(instances, id, response.status);
        if capturedSelectedId == Some(id) && selected.Some? {
          selected := Some(selected.value.(status := response.status));
        }
      }
    }

    /** `fetchInstances`, with the missing-field case handled as the list fallback intends.
        A failed or non-ok request records the load error and keeps the list and the selection;
        a body replaces the list, selects `InitialSelection` of it and checks that instance's
        status; an empty list selects nothing and checks nothing. Loading ends either way. */
    method FetchInstances(response: FetchResponse, statusResponse: StatusResponse)
      modifies this`instances, this`selected, this`isLoading, this`error
      ensures !isLoading
      ensures !response.FetchBody? ==>
                error == Some(LoadError) && instances == old(instances) && selected == old(selected)
      ensures response.FetchBody? ==> error == old(error)
      ensures response.FetchBody? ==>
                var listed := ListedInstances(response.instances);
                var choice := InitialSelection(listed, Lookup(store, LastSelectedKey));
                && (choice.None? ==> instances == listed && selected == old(selected))
                && (choice.Some? && statusResponse.StatusFailed? ==>
                      instances == listed && selected == choice)
                && (choice.Some? && statusResponse.StatusBody? ==>
                      && instances == WithStatus(listed, choice.value.id, statusResponse.status)
                      && selected == (if old(SelectedId()) == Some(choice.value.id)
                                      then Some(choice.value.(status := statusResponse.status))
                                      else choice))
    {
      var captured := SelectedId();
      isLoading := true;
      if response.FetchBody? {
        instances := ListedInstances(response.instances);
        var choice := InitialSelection(instances, Lookup(store, LastSelectedKey));
        if choice.Some? {
          selected := choice;
          CheckInstanceStatus(choice.value.id, statusResponse, captured);
        }
      } else {
        error := Some(LoadError);
      }
      isLoading := false;
    }

    /** `selectInstance(instance)`: selects it, remembers its id in the store and checks its
        status (with the selection seen before this call). */
    method SelectInstance(instance: Instance, statusResponse: StatusResponse)
      modifies this`selected, this`store, this`instances
      ensures store == old(store)[LastSelectedKey := instance.id]
      ensures Lookup(store, LastSelectedKey) == Some(instance.id)
      ensures statusResponse.StatusFailed? ==> instances == old(instances) && selected == Some(instance)
      ensures statusResponse.StatusBody? ==>
                && instances == WithStatus(old(instances), instance.id, statusResponse.status)
                && selected == (if old(SelectedId()) == Some(instance.id)
                                then Some(instance.(status := statusResponse.status))
                                else Some(instance))
    {
      var captured := SelectedId();
      selected := Some(instance);
      store := store[LastSelectedKey := instance.id];
      CheckInstanceStatus(instance.id, statusResponse, captured);
    }
  }

  /** Selecting an instance and reloading the list picks that instance again when the
      list still has it. */
  lemma SelectionSurvivesReload(instances: seq<Instance>, store: map<string, string>, chosen: Instance)
    requires chosen.id != "" && chosen in instances
    ensures var s := InitialSelection(instances, Lookup(store[LastSelectedKey := chosen.id], LastSelectedKey));
            s.Some? && s.value.id == chosen.id
  {
    var i :| 0 <= i < |instances| && instances[i] == chosen;
  }
}
