/**
 * The interaction registry of the autofill assistant's generic UI: a map from
 * event key to the ordered list of callbacks to run when that event fires,
 * populated from InteractionsProto, plus the pure converters from event and
 * callback protos and the validation done by the ShowListPopup callback.
 *
 * The JNI side (views, click listeners, the Java popups) is abstracted: a
 * view is known by its identifier only, and showing a popup is recorded as a
 * UiEffect value instead of a call into Java.
 */
module InteractionHandler {
  import opened Wrappers

  /** The kinds of ValueProto the model distinguishes. */
  datatype ValueProto =
    | StringsValue(strings: seq<string>)
    | IntsValue(ints: seq<int>)
    | BooleansValue(booleans: seq<bool>)
    | KindNotSetValue

  /** `strings().values()`: empty unless the value holds strings. */
  function StringValues(v: ValueProto): seq<string>
  {
    if v.StringsValue? then v.strings else []
  }

  /** `ints().values()`: empty unless the value holds ints. */
  function IntValues(v: ValueProto): seq<int>
  {
    if v.IntsValue? then v.ints else []
  }

  /** The user model, identifier to value. */
  type UserModel = map<string, ValueProto>

  /** ShowListPopupProto::ENABLED, the item type given to every item when none are specified. */
  const ItemTypeEnabled: int := 1

  datatype InfoPopupProto = InfoPopupProto(title: string, text: string)

  datatype ShowListPopupProto = ShowListPopupProto(
    itemNamesModelIdentifier: string,
    itemTypesModelIdentifier: Option<string>,
    selectedItemIndicesModelIdentifier: string,
    allowMultiselect: bool)

  datatype EventKind = OnValueChanged | OnViewClicked

  /** EventHandler::EventKey: the event's kind and its model or view identifier. */
  datatype EventKey = EventKey(kind: EventKind, identifier: string)

  datatype EventProto =
    | OnValueChangedEvent(modelIdentifier: string)
    | OnViewClickedEvent(viewIdentifier: string, value: Option<ValueProto>)
    | EventKindNotSet

  datatype CallbackProto =
    | SetValueCallback(setValueModelIdentifier: string)
    | ShowInfoPopupCallback(infoPopup: InfoPopupProto)
    | ShowListPopupCallback(showListPopup: ShowListPopupProto)
    | CallbackKindNotSet

  datatype InteractionProto = InteractionProto(triggerEvent: EventProto, callbacks: seq<CallbackProto>)

  /** A bound interaction callback; the event's value is its one run-time argument. */
  datatype InteractionCallback =
    | SetValue(identifier: string)
    | ShowInfoPopup(infoPopup: InfoPopupProto)
    | ShowListPopup(listPopup: ShowListPopupProto)

  /** What the Java list popup is shown with. */
  datatype ListPopup = ListPopup(
    itemNames: seq<string>,
    itemTypes: seq<int>,
    selectedIndices: seq<int>,
    allowMultiselect: bool,
    selectedIndicesIdentifier: string)

  datatype UiEffect = InfoPopupShown(info: InfoPopupProto) | ListPopupShown(popup: ListPopup)

  type Interactions = map<EventKey, seq<InteractionCallback>>

  /** The callbacks registered under `key`; none for an absent key. */
  function CallbacksOf(m: Interactions, key: EventKey): seq<InteractionCallback>
  {
    if key in m then m[key] else []
  }

  /**
   * CreateEventKeyFromProto: a value-changed event is keyed by its model
   * identifier; a click event only when the clicked view exists; an unset
   * kind gives no key.
   */
  function CreateEventKeyFromProto(proto: EventProto, views: set<string>): (r: Option<EventKey>)
    ensures proto.OnValueChangedEvent? ==> r == Some(EventKey(OnValueChanged, proto.modelIdentifier))
    ensures proto.OnViewClickedEvent? ==>
      r == if proto.viewIdentifier in views then Some(EventKey(OnViewClicked, proto.viewIdentifier)) else None
    ensures proto.EventKindNotSet? ==> r == None
  {
    match proto
    case OnValueChangedEvent(id) => Some(EventKey(OnValueChanged, id))
    case OnViewClickedEvent(id, _) =>
      if id !in views then None else Some(EventKey(OnViewClicked, id))
    case EventKindNotSet => None
  }

  /**
   * CreateInteractionCallbackFromProto: rejected exactly when a required
   * identifier is empty or the kind is unset; otherwise the callback keeps the
   * proto's identifiers.
   */
  function CreateInteractionCallbackFromProto(proto: CallbackProto): (r: Option<InteractionCallback>)
    ensures r.None? <==>
      (proto.SetValueCallback? && proto.setValueModelIdentifier == "") ||
      (proto.ShowListPopupCallback? &&
        (proto.showListPopup.itemNamesModelIdentifier == "" ||
         proto.showListPopup.selectedItemIndicesModelIdentifier == "")) ||
      proto.CallbackKindNotSet?
    ensures r.Some? && proto.SetValueCallback? ==> r.value == SetValue(proto.setValueModelIdentifier)
    ensures r.Some? && proto.ShowInfoPopupCallback? ==> r.value == ShowInfoPopup(proto.infoPopup)
    ensures r.Some? && proto.ShowListPopupCallback? ==> r.value == ShowListPopup(proto.showListPopup)
  {
    match proto
    case SetValueCallback(id) =>
      if id == "" then None else Some(SetValue(id))
    case ShowInfoPopupCallback(info) => Some(ShowInfoPopup(info))
    case ShowListPopupCallback(p) =>
      if p.itemNamesModelIdentifier == "" then None
      else if p.selectedItemIndicesModelIdentifier == "" then None
      else Some(ShowListPopup(p))
    case CallbackKindNotSet => None
  }

  /** One ENABLED item type per item. */
  function DefaultItemTypes(n: nat): (r: seq<int>)
    ensures |r| == n && forall i :: 0 <= i < n ==> r[i] == ItemTypeEnabled
  {
    seq(n, _ => ItemTypeEnabled)
  }

  /**
   * The validation of ShowListPopup: the popup the callback shows for the
   * current user model, if any.
   */
  function ListPopupFor(model: UserModel, proto: ShowListPopupProto): (r: Option<ListPopup>)
    ensures r.Some? <==>
      proto.itemNamesModelIdentifier in model &&
      |StringValues(model[proto.itemNamesModelIdentifier])| != 0 &&
      (proto.itemTypesModelIdentifier.Some? ==>
        proto.itemTypesModelIdentifier.value in model &&
        |IntValues(model[proto.itemTypesModelIdentifier.value])| ==
          |StringValues(model[proto.itemNamesModelIdentifier])|) &&
      proto.selectedItemIndicesModelIdentifier in model &&
      (model[proto.selectedItemIndicesModelIdentifier].KindNotSetValue? ||
       model[proto.selectedItemIndicesModelIdentifier].IntsValue?)
    ensures r.Some? ==>
      r.value.itemNames == StringValues(model[proto.itemNamesModelIdentifier]) &&
      |r.value.itemTypes| == |r.value.itemNames| &&
      r.value.selectedIndices == IntValues(model[proto.selectedItemIndicesModelIdentifier]) &&
      r.value.allowMultiselect == proto.allowMultiselect &&
      r.value.selectedIndicesIdentifier == proto.selectedItemIndicesModelIdentifier
    ensures r.Some? && proto.itemTypesModelIdentifier.None? ==>
      forall i :: 0 <= i < |r.value.itemTypes| ==> r.value.itemTypes[i] == ItemTypeEnabled
    ensures r.Some? && proto.itemTypesModelIdentifier.Some? ==>
      r.value.itemTypes == IntValues(model[proto.itemTypesModelIdentifier.value])
  {
    if proto.itemNamesModelIdentifier !in model then None
    else
      var names := StringValues(model[proto.itemNamesModelIdentifier]);
      if |names| == 0 then None
      else if proto.itemTypesModelIdentifier.Some? &&
              (proto.itemTypesModelIdentifier.value !in model ||
               |IntValues(model[proto.itemTypesModelIdentifier.value])| != |names|) then None
      else
        var types := if proto.itemTypesModelIdentifier.Some?
                     then IntValues(model[proto.itemTypesModelIdentifier.value])
                     else DefaultItemTypes(|names|);
        if proto.selectedItemIndicesModelIdentifier !in model then None
        else
          var selected := model[proto.selectedItemIndicesModelIdentifier];
          if selected != KindNotSetValue && !selected.IntsValue? then None
          else Some(ListPopup(names, types, IntValues(selected), proto.allowMultiselect,
                              proto.selectedItemIndicesModelIdentifier))
  }

  /** The ShowListPopup callback as the source runs it, loop for the default item types included. */
  method ShowListPopupOnModel(model: UserModel, proto: ShowListPopupProto) returns (popup: Option<ListPopup>)
    ensures popup == ListPopupFor(model, proto)
  {
    if proto.itemNamesModelIdentifier !in model {
      return None;
    }
    var names := StringValues(model[proto.itemNamesModelIdentifier]);
    if |names| == 0 {
      return None;
    }
    var types: seq<int>;
    if proto.itemTypesModelIdentifier.Some? {
      var typesId := proto.itemTypesModelIdentifier.value;
      if typesId !in model {
        return None;
      }
      if |IntValues(model[typesId])| != |names| {
        return None;
      }
      types := IntValues(model[typesId]);
    } else {
      types := [];
      var i := 0;
      while i < |names|
        invariant 0 <= i <= |names|
        invariant types == DefaultItemTypes(i)
      {
        types := types + [ItemTypeEnabled];
        i := i + 1;
      }
    }
    if proto.selectedItemIndicesModelIdentifier !in model {
      return None;
    }
    var selected := model[proto.selectedItemIndicesModelIdentifier];
    if selected != KindNotSetValue && !selected.IntsValue? {
      return None;
    }
    popup := Some(ListPopup(names, types, IntValues(selected), proto.allowMultiselect,
                            proto.selectedItemIndicesModelIdentifier));
  }

  /** Running one callback with the event's value: its effect on the model and on the UI. */
  function RunCallback(callback: InteractionCallback, value: ValueProto, model: UserModel): (UserModel, seq<UiEffect>)
  {
    match callback
    case SetValue(id) => (model[id := value], [])
    case ShowInfoPopup(info) => (model, [InfoPopupShown(info)])
    case ShowListPopup(p) =>
      var popup := ListPopupFor(model, p);
      (model, if popup.Some? then [ListPopupShown(popup.value)] else [])
  }

  /** Running a list of callbacks once each, first to last, each seeing the model its predecessors left. */
  function RunCallbacks(callbacks: seq<InteractionCallback>, value: ValueProto, model: UserModel): (UserModel, seq<UiEffect>)
  {
    if |callbacks| == 0 then (model, [])
    else
      var (m1, e1) := RunCallbacks(callbacks[..|callbacks| - 1], value, model);
      var (m2, e2) := RunCallback(callbacks[|callbacks| - 1], value, m1);
      (m2, e1 + e2)
  }

  /** Running `a + b` is running `a` and then `b` on the model `a` left. */
  lemma {:induction false} RunCallbacksAppend(a: seq<InteractionCallback>, b: seq<InteractionCallback>, value: ValueProto, model: UserModel)
    ensures RunCallbacks(a + b, value, model) ==
      var (m1, e1) := RunCallbacks(a, value, model);
      var (m2, e2) := RunCallbacks(b, value, m1);
      (m2, e1 + e2)
    decreases |b|
  {
    if |b| == 0 {
      assert a + b == a;
      var (m1, e1) := RunCallbacks(a, value, model);
      assert e1 + [] == e1;
    } else {
      var b' := b[..|b| - 1];
      assert (a + b)[..|a + b| - 1] == a + b';
      assert (a + b)[|a + b| - 1] == b[|b| - 1];
      RunCallbacksAppend(a, b', value, model);
      var (m1, e1) := RunCallbacks(a, value, model);
      var (mb, eb) := RunCallbacks(b', value, m1);
      var (m2, e2) := RunCallback(b[|b| - 1], value, mb);
      assert RunCallbacks(b, value, m1) == (m2, eb + e2);
      assert RunCallbacks(a + b, value, model) == (m2, (e1 + eb) + e2);
      assert (e1 + eb) + e2 == e1 + (eb + e2);
    }
  }

  /** The identifiers the SetValue callbacks of a list write to. */
  function SetIdentifiers(callbacks: seq<InteractionCallback>): set<string>
  {
    if |callbacks| == 0 then {}
    else
      var last := callbacks[|callbacks| - 1];
      SetIdentifiers(callbacks[..|callbacks| - 1]) + if last.SetValue? then {last.identifier} else {}
  }

  /**
   * Only the SetValue callbacks change the model: each writes the event's
   * value under its identifier, and every other entry is left as it was.
   */
  lemma {:induction false} RunCallbacksOnlySetsValues(callbacks: seq<InteractionCallback>, value: ValueProto, model: UserModel)
    ensures var m := RunCallbacks(callbacks, value, model).0;
      (forall id :: id in SetIdentifiers(callbacks) ==> id in m && m[id] == value) &&
      (forall id :: id !in SetIdentifiers(callbacks) ==>
        (id in m <==> id in model) && (id in model ==> m[id] == model[id]))
    decreases |callbacks|
  {
    if |callbacks| > 0 {
      RunCallbacksOnlySetsValues(callbacks[..|callbacks| - 1], value, model);
    }
  }

  /** Registering one callback list under `key`, as the inner loop of AddInteractionsFromProto does. */
  function RegisterCallbacks(m: Interactions, key: EventKey, protos: seq<CallbackProto>): (Interactions, bool)
  {
    if |protos| == 0 then (m, true)
    else
      var (m1, ok) := RegisterCallbacks(m, key, protos[..|protos| - 1]);
      if !ok then (m1, false)
      else
        var cb := CreateInteractionCallbackFromProto(protos[|protos| - 1]);
        if cb.None? then (m1, false)
        else (m1[key := CallbacksOf(m1, key) + [cb.value]], true)
  }

  /** Registering a list of interactions, stopping at the first invalid trigger or callback. */
  function RegisterInteractions(m: Interactions, protos: seq<InteractionProto>, views: set<string>): (Interactions, bool)
  {
    if |protos| == 0 then (m, true)
    else
      var (m1, ok) := RegisterInteractions(m, protos[..|protos| - 1], views);
      if !ok then (m1, false)
      else
        var key := CreateEventKeyFromProto(protos[|protos| - 1].triggerEvent, views);
        if key.None? then (m1, false)
        else RegisterCallbacks(m1, key.value, protos[|protos| - 1].callbacks)
  }

  /** `a` extends `b` on every key: nothing registered is ever removed or reordered. */
  ghost predicate Extends(b: Interactions, a: Interactions)
  {
    forall k :: k in b ==> k in a && b[k] <= a[k]
  }

  /** Every interaction of the list is valid: its trigger and all of its callbacks convert. */
  predicate AllValid(protos: seq<InteractionProto>, views: set<string>)
  {
    forall i :: 0 <= i < |protos| ==>
      CreateEventKeyFromProto(protos[i].triggerEvent, views).Some? &&
      forall j :: 0 <= j < |protos[i].callbacks| ==>
        CreateInteractionCallbackFromProto(protos[i].callbacks[j]).Some?
  }

  lemma {:induction false} RegisterCallbacksSpec(m: Interactions, key: EventKey, protos: seq<CallbackProto>)
    ensures var (m', ok) := RegisterCallbacks(m, key, protos);
      Extends(m, m') &&
      (forall k :: k != key ==> CallbacksOf(m', k) == CallbacksOf(m, k)) &&
      (ok <==> forall j :: 0 <= j < |protos| ==> CreateInteractionCallbackFromProto(protos[j]).Some?)
    decreases |protos|
  {
    if |protos| > 0 {
      var init := protos[..|protos| - 1];
      RegisterCallbacksSpec(m, key, init);
      var (m1, ok1) := RegisterCallbacks(m, key, init);
      if ok1 {
        assert forall j :: 0 <= j < |init| ==> init[j] == protos[j];
      } else {
        var j :| 0 <= j < |init| && CreateInteractionCallbackFromProto(init[j]).None?;
        assert protos[j] == init[j];
      }
    }
  }

  /**
   * AddInteractionsFromProto's outcome: it succeeds exactly when every
   * interaction is valid, registrations made before a failure stay in place
   * (no rollback), and keys untouched by the list keep their callbacks.
   */
  lemma {:induction false} RegisterInteractionsSpec(m: Interactions, protos: seq<InteractionProto>, views: set<string>)
    ensures var (m', ok) := RegisterInteractions(m, protos, views);
      Extends(m, m') && (ok <==> AllValid(protos, views))
    decreases |protos|
  {
    if |protos| > 0 {
      var init := protos[..|protos| - 1];
      var last := protos[|protos| - 1];
      RegisterInteractionsSpec(m, init, views);
      var (m1, ok1) := RegisterInteractions(m, init, views);
      if ok1 {
        assert forall i :: 0 <= i < |init| ==> init[i] == protos[i];
        var key := CreateEventKeyFromProto(last.triggerEvent, views);
        if key.Some? {
          RegisterCallbacksSpec(m1, key.value, last.callbacks);
        }
      } else {
        var i :| 0 <= i < |init| && !(CreateEventKeyFromProto(init[i].triggerEvent, views).Some? &&
          forall j :: 0 <= j < |init[i].callbacks| ==> CreateInteractionCallbackFromProto(init[i].callbacks[j]).Some?);
        assert protos[i] == init[i];
      }
    }
  }

  /** The callbacks a list of callback protos converts to, skipping any that fail to convert. */
  function ConvertedCallbacks(protos: seq<CallbackProto>): seq<InteractionCallback>
  {
    if |protos| == 0 then []
    else
      var cb := CreateInteractionCallbackFromProto(protos[|protos| - 1]);
      ConvertedCallbacks(protos[..|protos| - 1]) + if cb.Some? then [cb.value] else []
  }

  /** Reference definition: the callbacks a list of interactions contributes to `key`, in list order. */
  function ContributedTo(protos: seq<InteractionProto>, views: set<string>, key: EventKey): seq<InteractionCallback>
  {
    if |protos| == 0 then []
    else
      var last := protos[|protos| - 1];
      ContributedTo(protos[..|protos| - 1], views, key) +
        if CreateEventKeyFromProto(last.triggerEvent, views) == Some(key)
        then ConvertedCallbacks(last.callbacks) else []
  }

  lemma {:induction false} RegisterCallbacksContents(m: Interactions, key: EventKey, protos: seq<CallbackProto>)
    requires RegisterCallbacks(m, key, protos).1
    ensures CallbacksOf(RegisterCallbacks(m, key, protos).0, key) == CallbacksOf(m, key) + ConvertedCallbacks(protos)
    decreases |protos|
  {
    if |protos| > 0 {
      RegisterCallbacksContents(m, key, protos[..|protos| - 1]);
    }
  }

  /** A successful registration of a non-empty list is a successful prefix followed by the last interaction. */
  lemma RegisterInteractionsUnfold(m: Interactions, protos: seq<InteractionProto>, views: set<string>)
    requires |protos| > 0 && RegisterInteractions(m, protos, views).1
    ensures var init := protos[..|protos| - 1];
      var last := protos[|protos| - 1];
      var key := CreateEventKeyFromProto(last.triggerEvent, views);
      RegisterInteractions(m, init, views).1 && key.Some? &&
      RegisterInteractions(m, protos, views) == RegisterCallbacks(RegisterInteractions(m, init, views).0, key.value, last.callbacks)
  {
  }

  /**
   * On success, AddInteractionsFromProto leaves under every key exactly its
   * former callbacks followed by those the list contributes to it, in order.
   */
  lemma {:induction false} RegisterInteractionsContents(m: Interactions, protos: seq<InteractionProto>, views: set<string>, key: EventKey)
    requires RegisterInteractions(m, protos, views).1
    ensures CallbacksOf(RegisterInteractions(m, protos, views).0, key) ==
      CallbacksOf(m, key) + ContributedTo(protos, views, key)
    decreases |protos|
  {
    if |protos| > 0 {
      var init := protos[..|protos| - 1];
      var last := protos[|protos| - 1];
      RegisterInteractionsUnfold(m, protos, views);
      var m1 := RegisterInteractions(m, init, views).0;
      var k := CreateEventKeyFromProto(last.triggerEvent, views).value;
      RegisterInteractionsContents(m, init, views, key);
      if k == key {
        RegisterCallbacksContents(m1, k, last.callbacks);
      } else {
        RegisterCallbacksSpec(m1, k, last.callbacks);
        assert ContributedTo(protos, views, key) == ContributedTo(init, views, key) + [];
      }
    }
  }

  /** Running a key right after AddInteraction runs its former callbacks and then the new one. */
  lemma AddThenRun(m: Interactions, key: EventKey, callback: InteractionCallback, value: ValueProto, model: UserModel)
    ensures RunCallbacks(CallbacksOf(m[key := CallbacksOf(m, key) + [callback]], key), value, model) ==
      var (m1, e1) := RunCallbacks(CallbacksOf(m, key), value, model);
      var (m2, e2) := RunCallback(callback, value, m1);
      (m2, e1 + e2)
  {
    RunCallbacksAppend(CallbacksOf(m, key), [callback], value, model);
    assert [callback][..0] == [];
  }

  class InteractionHandlerAndroid {
    var interactions: Interactions
    var isListening: bool

    constructor ()
      ensures interactions == map[] && !isListening
    {
      interactions := map[];
      isListening := false;
    }

    /** Only the flag: the registration as the user model's observer is not modelled. */
    method StartListening()
      modifies this`isListening
      ensures isListening
    {
      isListening := true;
    }

    /** Only the flag: the removal of the observer is not modelled. */
    method StopListening()
      modifies this`isListening
      ensures !isListening
    {
      isListening := false;
    }

    /** Appends `callback` to the end of the list for `key`; every other key is unchanged. */
    method AddInteraction(key: EventKey, callback: InteractionCallback)
      modifies this`interactions
      ensures interactions == old(interactions)[key := CallbacksOf(old(interactions), key) + [callback]]
    {
      interactions := interactions[key := CallbacksOf(interactions, key) + [callback]];
    }

    /**
     * Refuses while listening; otherwise registers interaction by interaction
     * and returns false at the first invalid trigger or callback, keeping what
     * was registered before it.
     */
    method AddInteractionsFromProto(protos: seq<InteractionProto>, views: set<string>) returns (ok: bool)
      modifies this`interactions
      ensures old(isListening) ==> !ok && interactions == old(interactions)
      ensures !old(isListening) ==>
        (interactions, ok) == RegisterInteractions(old(interactions), protos, views)
    {
      if isListening {
        return false;
      }
      var i := 0;
      while i < |protos|
        invariant 0 <= i <= |protos|
        invariant (interactions, true) == RegisterInteractions(old(interactions), protos[..i], views)
      {
        assert protos[..i + 1][..i] == protos[..i];
        var key := CreateEventKeyFromProto(protos[i].triggerEvent, views);
        if key.None? {
          assert RegisterInteractions(old(interactions), protos[..i + 1], views) == (interactions, false);
          RegisterInteractionsStop(old(interactions), protos, i, views);
          return false;
        }
        var callbacks := protos[i].callbacks;
        ghost var before := interactions;
        var j := 0;
        while j < |callbacks|
          invariant 0 <= j <= |callbacks|
          invariant (interactions, true) == RegisterCallbacks(before, key.value, callbacks[..j])
        {
          assert callbacks[..j + 1][..j] == callbacks[..j];
          var callback := CreateInteractionCallbackFromProto(callbacks[j]);
          if callback.None? {
            assert callbacks[..|callbacks|] == callbacks;
            RegisterCallbacksStop(before, key.value, callbacks, j);
            assert protos[..i + 1][..i] == protos[..i];
            RegisterInteractionsStop(old(interactions), protos, i, views);
            return false;
          }
          AddInteraction(key.value, callback.value);
          j := j + 1;
        }
        assert callbacks[..j] == callbacks;
        i := i + 1;
      }
      assert protos[..i] == protos;
      ok := true;
    }

    /** Runs every callback registered under `key` once, in insertion order; a no-op for an unknown key. */
    method OnEvent(key: EventKey, value: ValueProto, model: UserModel) returns (newModel: UserModel, effects: seq<UiEffect>)
      ensures (newModel, effects) == RunCallbacks(CallbacksOf(interactions, key), value, model)
      ensures key !in interactions ==> newModel == model && effects == []
    {
      newModel, effects := model, [];
      if key in interactions {
        var callbacks := interactions[key];
        var i := 0;
        while i < |callbacks|
          invariant 0 <= i <= |callbacks|
          invariant (newModel, effects) == RunCallbacks(callbacks[..i], value, model)
        {
          assert callbacks[..i + 1][..i] == callbacks[..i];
          ghost var step := RunCallback(callbacks[i], value, newModel);
          ghost var effectsBefore := effects;
          assert RunCallbacks(callbacks[..i + 1], value, model) == (step.0, effects + step.1);
          assert effects + [] == effects;
          match callbacks[i] {
            case SetValue(id) =>
              newModel := newModel[id := value];
            case ShowInfoPopup(info) =>
              effects := effects + [InfoPopupShown(info)];
            case ShowListPopup(p) =>
              var popup := ShowListPopupOnModel(newModel, p);
              if popup.Some? {
                effects := effects + [ListPopupShown(popup.value)];
              }
          }
          assert (newModel, effects) == (step.0, effectsBefore + step.1);
          i := i + 1;
        }
        assert callbacks[..i] == callbacks;
      }
    }
  }

  /** A failing callback at index `j` fixes the outcome of the whole callback list. */
  lemma {:induction false} RegisterCallbacksStop(m: Interactions, key: EventKey, protos: seq<CallbackProto>, j: nat)
    requires j < |protos|
    requires RegisterCallbacks(m, key, protos[..j]).1
    requires CreateInteractionCallbackFromProto(protos[j]).None?
    ensures RegisterCallbacks(m, key, protos) == (RegisterCallbacks(m, key, protos[..j]).0, false)
    decreases |protos|
  {
    if j == |protos| - 1 {
      assert protos[..|protos| - 1] == protos[..j];
    } else {
      var init := protos[..|protos| - 1];
      assert init[..j] == protos[..j];
      RegisterCallbacksStop(m, key, init, j);
    }
  }

  /** A failure inside interaction `i` fixes the outcome of the whole interaction list. */
  lemma {:induction false} RegisterInteractionsStop(m: Interactions, protos: seq<InteractionProto>, i: nat, views: set<string>)
    requires i < |protos|
    requires !RegisterInteractions(m, protos[..i + 1], views).1
    ensures RegisterInteractions(m, protos, views) == RegisterInteractions(m, protos[..i + 1], views)
    decreases |protos|
  {
    if i + 1 < |protos| {
      var init := protos[..|protos| - 1];
      assert init[..i + 1] == protos[..i + 1];
      RegisterInteractionsStop(m, init, i, views);
    } else {
      assert protos[..i + 1] == protos;
    }
  }
}
