/**
 * The errors the create-alert flyout derives from the current draft: the
 * alert-type errors merged with the base-property errors, and one optional
 * validation result per attached action.
 */
module AlertValidation {
  import opened Wrappers
  import opened AlertDraft

  /** An error object: field path to its messages (no messages means the field is fine). */
  type Errors = map<string, seq<string>>

  /** A registered alert type, as far as validation sees it. */
  datatype AlertTypeModel = AlertTypeModel(validate: Params -> Errors)

  /** A registered action type, as far as validation sees it. */
  datatype ActionTypeModel = ActionTypeModel(validateParams: Params -> Errors)

  type AlertTypeRegistry = map<string, AlertTypeModel>
  type ActionTypeRegistry = map<string, ActionTypeModel>

  /**
   * The draft's alert type: looked up only when `alertTypeId` is truthy, so an
   * unset, null or empty id finds nothing, and an unregistered id finds nothing.
   */
  function AlertTypeOf(a: Alert, registry: AlertTypeRegistry): (t: Option<AlertTypeModel>)
    ensures t.Some? <==> a.alertTypeId.Some? && a.alertTypeId.value != "" && a.alertTypeId.value in registry
    ensures t.Some? ==> t.value == registry[a.alertTypeId.value]
  {
    if a.alertTypeId.Some? && a.alertTypeId.value != "" && a.alertTypeId.value in registry
    then Some(registry[a.alertTypeId.value])
    else None
  }

  /** The alert type's own errors for the draft's params; none without an alert type. */
  function TypeErrors(a: Alert, registry: AlertTypeRegistry): (e: Errors)
    ensures a.alertTypeId.Some? && a.alertTypeId.value != "" && a.alertTypeId.value in registry ==>
      e == registry[a.alertTypeId.value].validate(a.params)
    ensures a.alertTypeId.None? || a.alertTypeId.value == "" || a.alertTypeId.value !in registry ==> e == map[]
  {
    match AlertTypeOf(a, registry)
    case Some(t) => t.validate(a.params)
    case None => map[]
  }

  /**
   * `{...typeErrors, ...baseErrors}`: every key of either source, and on a key
   * both define the base-property messages replace the alert type's.
   */
  function MergedErrors(a: Alert, registry: AlertTypeRegistry, validateBase: Alert -> Errors): (e: Errors)
    ensures e.Keys == TypeErrors(a, registry).Keys + validateBase(a).Keys
    ensures forall k :: k in validateBase(a) ==> e[k] == validateBase(a)[k]
    ensures forall k :: k in TypeErrors(a, registry) && k !in validateBase(a) ==> e[k] == TypeErrors(a, registry)[k]
  {
    TypeErrors(a, registry) + validateBase(a)
  }

  /** Without a resolvable alert type the merged errors are exactly the base-property errors. */
  lemma NoAlertTypeMeansBaseErrors(a: Alert, registry: AlertTypeRegistry, validateBase: Alert -> Errors)
    requires a.alertTypeId.None? || a.alertTypeId.value == "" || a.alertTypeId.value !in registry
    ensures MergedErrors(a, registry, validateBase) == validateBase(a)
  {
  }

  /**
   * When the base-property errors cover every key the alert type reports, the
   * alert type's errors leave no trace in the merge.
   */
  lemma CoveredTypeErrorsVanish(a: Alert, registry: AlertTypeRegistry, validateBase: Alert -> Errors)
    ensures TypeErrors(a, registry).Keys <= validateBase(a).Keys ==> MergedErrors(a, registry, validateBase) == validateBase(a)
  {
  }

  /**
   * When both sources report messages under the same key, only the
   * base-property messages survive the merge: the alert type's are lost.
   */
  lemma BaseErrorsReplaceTypeErrors(a: Alert, registry: AlertTypeRegistry, validateBase: Alert -> Errors, key: string)
    requires key in TypeErrors(a, registry) && key in validateBase(a)
    ensures MergedErrors(a, registry, validateBase)[key] == validateBase(a)[key]
  {
  }

  /** The index of the first element satisfying `p` (`Array.prototype.find` yields `s[i]`). */
  function Find<T>(s: seq<T>, p: T -> bool): (r: Option<nat>)
    ensures r.Some? ==> r.value < |s| && p(s[r.value]) && forall j :: 0 <= j < r.value ==> !p(s[j])
    ensures r.None? ==> forall j :: 0 <= j < |s| ==> !p(s[j])
  {
    if s == [] then None
    else if p(s[0]) then Some(0)
    else match Find(s[1..], p)
      case None => None
      case Some(i) => Some(i + 1)
  }

  /** Some key of the error object holds at least one message. */
  predicate HasMessages(e: Errors) {
    exists k :: k in e && |e[k]| >= 1
  }

  /** `keys` is what `Object.keys(e)` returns: each key of `e` once, in some order. */
  predicate KeysOf(keys: seq<string>, e: Errors) {
    && (forall k :: k in keys ==> k in e)
    && (forall k :: k in e ==> k in keys)
    && (forall i, j :: 0 <= i < j < |keys| ==> keys[i] != keys[j])
  }

  /**
   * The per-action error test as written: the first key (in `Object.keys`
   * order) that holds a message is found, and `!!` turns it into a boolean, so
   * a found key equal to the empty string counts as no error.
   */
  function FlagsErrorsAsWritten(keys: seq<string>, e: Errors): (r: bool)
    requires KeysOf(keys, e)
    ensures r ==> HasMessages(e)
  {
    match Find(keys, k => k in e && |e[k]| >= 1)
    case None => false
    case Some(i) => keys[i] != ""
  }

  /**
   * The per-action error test as intended: a key holding a message was found.
   * Whatever order `Object.keys` reports, this is exactly `HasMessages`.
   */
  function FlagsErrors(keys: seq<string>, e: Errors): (r: bool)
    requires KeysOf(keys, e)
    ensures r <==> HasMessages(e)
  {
    var found := Find(keys, k => k in e && |e[k]| >= 1);
    if found.Some? then
      assert keys[found.value] in e && |e[keys[found.value]]| >= 1;
      true
    else
      false
  }

  /** An error object whose only key is the empty string, holding one message. */
  const EmptyKeyErrors: Errors := map["" := ["Message is required."]]

  /** The written test misses an error reported under the empty key. */
  lemma EmptyKeyErrorIsMissed()
    ensures KeysOf([""], EmptyKeyErrors)
    ensures HasMessages(EmptyKeyErrors)
    ensures !FlagsErrorsAsWritten([""], EmptyKeyErrors)
  {
    assert "" in EmptyKeyErrors && |EmptyKeyErrors[""]| >= 1;
  }

  /** Unless the empty key holds a message, the written test gives the intended answer. */
  lemma AsWrittenAgreesWithoutEmptyKey(keys: seq<string>, e: Errors)
    requires KeysOf(keys, e)
    requires "" in e ==> e[""] == []
    ensures FlagsErrorsAsWritten(keys, e) == FlagsErrors(keys, e)
  {
    var found := Find(keys, k => k in e && |e[k]| >= 1);
    if found.Some? {
      assert keys[found.value] != "";
    }
  }

  /** `actionTypeRegistry.get(actionTypeId)?.validateParams(params)`: `None` for an unregistered type. */
  function ValidateAction(action: AlertAction, registry: ActionTypeRegistry): (r: Option<Errors>)
    ensures r.Some? <==> action.actionTypeId in registry
    ensures r.Some? ==> r.value == registry[action.actionTypeId].validateParams(action.params)
  {
    if action.actionTypeId in registry
    then Some(registry[action.actionTypeId].validateParams(action.params))
    else None
  }

  /** `actionsErrors`: one optional validation result per action, by position. */
  function ActionsErrors(actions: seq<AlertAction>, registry: ActionTypeRegistry): (r: seq<Option<Errors>>)
    ensures |r| == |actions|
    ensures forall i :: 0 <= i < |actions| ==> r[i] == ValidateAction(actions[i], registry)
  {
    seq(|actions|, i requires 0 <= i < |actions| => ValidateAction(actions[i], registry))
  }

  /** A validation result that exists and reports a message. */
  predicate IsActionError(result: Option<Errors>) {
    result.Some? && HasMessages(result.value)
  }

  /**
   * `hasActionErrors`: some action has a validation result with a key holding a
   * message; actions of unregistered types never count.
   */
  predicate HasActionErrors(actions: seq<AlertAction>, registry: ActionTypeRegistry)
    ensures HasActionErrors(actions, registry) <==>
      exists i :: 0 <= i < |actions| && actions[i].actionTypeId in registry
        && HasMessages(registry[actions[i].actionTypeId].validateParams(actions[i].params))
  {
    var errs := ActionsErrors(actions, registry);
    var found := Find(errs, IsActionError);
    if found.Some? then
      assert IsActionError(ValidateAction(actions[found.value], registry));
      true
    else
      false
  }

  /** Adding or removing an action whose type is not registered never changes `hasActionErrors`. */
  lemma UnregisteredActionIgnored(before: seq<AlertAction>, action: AlertAction, after: seq<AlertAction>, registry: ActionTypeRegistry)
    requires action.actionTypeId !in registry
    ensures HasActionErrors(before + [action] + after, registry) == HasActionErrors(before + after, registry)
  {
    var withIt := before + [action] + after;
    var without := before + after;
    if HasActionErrors(withIt, registry) {
      var i :| 0 <= i < |withIt| && withIt[i].actionTypeId in registry
        && HasMessages(registry[withIt[i].actionTypeId].validateParams(withIt[i].params));
      var j := if i < |before| then i else i - 1;
      assert without[j] == withIt[i];
    }
    if HasActionErrors(without, registry) {
      var j :| 0 <= j < |without| && without[j].actionTypeId in registry
        && HasMessages(registry[without[j].actionTypeId].validateParams(without[j].params));
      var i := if j < |before| then j else j + 1;
      assert withIt[i] == without[j];
    }
  }

  /** `keys[i]` is what `Object.keys` returns for the validation result of `actions[i]`, when there is one. */
  predicate KeyOrders(actions: seq<AlertAction>, registry: ActionTypeRegistry, keys: seq<seq<string>>) {
    && |keys| == |actions|
    && forall i :: 0 <= i < |actions| && actions[i].actionTypeId in registry ==>
         KeysOf(keys[i], registry[actions[i].actionTypeId].validateParams(actions[i].params))
  }

  /** The per-action test of the written `hasActionErrors`: a result exists and its `!!...find(...)` holds. */
  predicate IsActionErrorAsWritten(result: Option<Errors>, keys: seq<string>) {
    result.Some? && KeysOf(keys, result.value) && FlagsErrorsAsWritten(keys, result.value)
  }

  /**
   * `hasActionErrors` as written: some action has a validation result whose
   * written per-action test holds. It never flags an error that is not there.
   */
  function HasActionErrorsAsWritten(actions: seq<AlertAction>, registry: ActionTypeRegistry, keys: seq<seq<string>>): (r: bool)
    requires KeyOrders(actions, registry, keys)
    ensures r <==> exists i :: 0 <= i < |actions| && IsActionErrorAsWritten(ValidateAction(actions[i], registry), keys[i])
    ensures r ==> HasActionErrors(actions, registry)
  {
    var errs := ActionsErrors(actions, registry);
    // `find` over the positions, since each result's key order goes with its position
    var found := Find(seq(|actions|, i requires 0 <= i < |actions| => i), i => 0 <= i < |actions| && IsActionErrorAsWritten(errs[i], keys[i]));
    if found.Some? then
      var i := found.value;
      assert 0 <= i < |actions| && IsActionErrorAsWritten(ValidateAction(actions[i], registry), keys[i]);
      assert HasMessages(registry[actions[i].actionTypeId].validateParams(actions[i].params));
      true
    else
      assert forall i :: 0 <= i < |actions| ==> !IsActionErrorAsWritten(errs[i], keys[i]) by {
        forall i | 0 <= i < |actions|
          ensures !IsActionErrorAsWritten(errs[i], keys[i])
        {
          assert seq(|actions|, i requires 0 <= i < |actions| => i)[i] == i;
        }
      }
      false
  }

  /** When no registered action's result holds a message under `""`, the written flag is the intended one. */
  lemma ActionsAsWrittenAgreeWithoutEmptyKey(actions: seq<AlertAction>, registry: ActionTypeRegistry, keys: seq<seq<string>>)
    requires KeyOrders(actions, registry, keys)
    requires forall i :: 0 <= i < |actions| && actions[i].actionTypeId in registry ==>
      var e := registry[actions[i].actionTypeId].validateParams(actions[i].params);
      "" in e ==> e[""] == []
    ensures HasActionErrorsAsWritten(actions, registry, keys) == HasActionErrors(actions, registry)
  {
    if HasActionErrors(actions, registry) {
      var i :| 0 <= i < |actions| && actions[i].actionTypeId in registry
        && HasMessages(registry[actions[i].actionTypeId].validateParams(actions[i].params));
      var e := registry[actions[i].actionTypeId].validateParams(actions[i].params);
      AsWrittenAgreesWithoutEmptyKey(keys[i], e);
      assert IsActionErrorAsWritten(ValidateAction(actions[i], registry), keys[i]);
    }
  }

  /** An action type whose validator reports one message under the empty key. */
  const EmptyKeyActionTypes: ActionTypeRegistry := map["t" := ActionTypeModel(_ => EmptyKeyErrors)]

  /**
   * One action of that type: the action has an error, yet the written
   * `hasActionErrors` is false.
   */
  lemma EmptyKeyActionIsMissed()
    ensures var actions := [AlertAction("default", "a", "t", map[])];
      && KeyOrders(actions, EmptyKeyActionTypes, [[""]])
      && HasActionErrors(actions, EmptyKeyActionTypes)
      && !HasActionErrorsAsWritten(actions, EmptyKeyActionTypes, [[""]])
  {
    var actions := [AlertAction("default", "a", "t", map[])];
    EmptyKeyErrorIsMissed();
    assert EmptyKeyActionTypes["t"].validateParams(map[]) == EmptyKeyErrors;
    assert ValidateAction(actions[0], EmptyKeyActionTypes) == Some(EmptyKeyErrors);
    assert HasMessages(EmptyKeyActionTypes[actions[0].actionTypeId].validateParams(actions[0].params));
  }
}
