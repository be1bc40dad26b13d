/**
 * The create-alert flyout's submission workflow: the derived flags, the
 * confirmation gate, and the save protocol over
 * (draft, isSaving, isConfirmAlertSaveModalOpen). Toasts, the create call and
 * the close/reload callbacks are recorded in an effect log.
 *
 * The pure step functions say what each handler does to the whole state; the
 * class `AlertAddFlyout` carries out the handlers step by step and is proved
 * to follow them.
 */
module AlertAdd {
  import opened Wrappers
  import opened AlertDraft
  import opened AlertValidation

  /** The fallback text of the danger toast when the error body carries no message. */
  const CannotCreateAlert := "Cannot create alert."

  /** What the backend's create call does with the draft (its answer is an input). */
  datatype CreateResponse =
    | Created(name: string)
    | CreateFailed(bodyMessage: Option<string>)

  /** The outside effects of the workflow, in the order they happen. */
  datatype Effect =
    | CreateCall(alert: Alert)
    | SuccessToast(alertName: string)
    | DangerToast(text: string)
    | Closed
    | Reloaded

  predicate IsCreateCall(e: Effect) { e.CreateCall? }
  predicate IsToast(e: Effect) { e.SuccessToast? || e.DangerToast? }
  predicate IsDangerToast(e: Effect) { e.DangerToast? }
  predicate IsClosed(e: Effect) { e.Closed? }
  predicate IsReloaded(e: Effect) { e.Reloaded? }

  /** How many effects of the log satisfy `p`. */
  function Count(log: seq<Effect>, p: Effect -> bool): nat {
    if log == [] then 0 else (if p(log[0]) then 1 else 0) + Count(log[1..], p)
  }

  lemma {:induction false} CountAppend(a: seq<Effect>, b: seq<Effect>, p: Effect -> bool)
    ensures Count(a + b, p) == Count(a, p) + Count(b, p)
    decreases |a|
  {
    if a == [] {
      assert a + b == b;
    } else {
      assert (a + b)[1..] == a[1..] + b;
      CountAppend(a[1..], b, p);
    }
  }

  lemma CountPair(x: Effect, y: Effect, p: Effect -> bool)
    ensures Count([x, y], p) == (if p(x) then 1 else 0) + (if p(y) then 1 else 0)
  {
    var log := [x, y];
    assert log[1..] == [y];
    assert Count(log, p) == (if p(x) then 1 else 0) + Count([y], p);
    assert [y][1..] == [];
    assert Count([y], p) == (if p(y) then 1 else 0) + Count([], p);
  }

  /** The log's protocol at position `i`. */
  predicate WellPlaced(log: seq<Effect>, i: int)
    requires 0 <= i < |log|
  {
    && (log[i].CreateCall? ==> i + 1 < |log| && IsToast(log[i + 1]))
    && (IsToast(log[i]) ==> 0 < i && log[i - 1].CreateCall?)
    && (log[i].Reloaded? ==> 0 < i && log[i - 1].Closed?)
  }

  /**
   * Every create call is followed at once by exactly one toast, every toast
   * answers a create call, and a reload comes right after a close.
   */
  predicate Protocol(log: seq<Effect>) {
    forall i :: 0 <= i < |log| ==> WellPlaced(log, i)
  }

  /** A log may be extended by any segment that keeps the protocol and does not start with a toast or reload. */
  lemma ProtocolAppend(a: seq<Effect>, b: seq<Effect>)
    requires Protocol(a) && Protocol(b)
    requires |b| > 0 ==> !IsToast(b[0]) && !b[0].Reloaded?
    ensures Protocol(a + b)
  {
    var log := a + b;
    forall i | 0 <= i < |log|
      ensures WellPlaced(log, i)
    {
      if i < |a| {
        assert WellPlaced(a, i);
        assert log[i] == a[i];
        if a[i].CreateCall? { assert log[i + 1] == a[i + 1]; }
        if 0 < i { assert log[i - 1] == a[i - 1]; }
      } else {
        assert WellPlaced(b, i - |a|);
        assert log[i] == b[i - |a|];
        if i + 1 < |log| { assert log[i + 1] == b[i + 1 - |a|]; }
        if |a| < i { assert log[i - 1] == b[i - 1 - |a|]; }
      }
    }
  }

  /** The effects and the result of one `onSaveAlert` call. */
  datatype Attempt = Attempt(effects: seq<Effect>, saved: Option<string>)

  /**
   * `onSaveAlert`: when `isValidAlert` holds the draft is sent to `createAlert`
   * and exactly one toast reports the outcome; otherwise nothing happens and the
   * result is undefined. `saved` is the created alert's name.
   */
  function SaveAttempt(alert: Alert, isValid: bool, response: CreateResponse): (att: Attempt)
    ensures Count(att.effects, IsCreateCall) == if isValid then 1 else 0
    ensures Count(att.effects, IsToast) == Count(att.effects, IsCreateCall)
    ensures Count(att.effects, IsDangerToast) == if isValid && response.CreateFailed? then 1 else 0
    ensures att.saved.Some? <==> isValid && response.Created?
    ensures isValid ==> att.effects[0] == CreateCall(alert)
    ensures isValid && response.Created? ==> att.saved == Some(response.name) && SuccessToast(response.name) in att.effects
    ensures isValid && response.CreateFailed? ==> DangerToast(response.bodyMessage.GetOr(CannotCreateAlert)) in att.effects
    ensures Protocol(att.effects) && (|att.effects| > 0 ==> att.effects[0].CreateCall?)
  {
    if !isValid then
      Attempt([], None)
    else
      match response
      case Created(name) =>
        var log := [CreateCall(alert), SuccessToast(name)];
        CountPair(CreateCall(alert), SuccessToast(name), IsCreateCall);
        CountPair(CreateCall(alert), SuccessToast(name), IsToast);
        CountPair(CreateCall(alert), SuccessToast(name), IsDangerToast);
        Attempt(log, Some(name))
      case CreateFailed(message) =>
        var log := [CreateCall(alert), DangerToast(message.GetOr(CannotCreateAlert))];
        CountPair(CreateCall(alert), DangerToast(message.GetOr(CannotCreateAlert)), IsCreateCall);
        CountPair(CreateCall(alert), DangerToast(message.GetOr(CannotCreateAlert)), IsToast);
        CountPair(CreateCall(alert), DangerToast(message.GetOr(CannotCreateAlert)), IsDangerToast);
        Attempt(log, None)
  }

  /** The fixed facts of one flyout instance. */
  datatype Setup = Setup(
    initialAlert: Alert,
    alertTypes: AlertTypeRegistry,
    actionTypes: ActionTypeRegistry,
    validateBaseProperties: Alert -> Errors,
    isValidAlert: (Alert, Errors) -> bool,
    canShowActions: bool,
    hasReloadAlerts: bool)

  /** The facts a flyout fixes when it mounts, from its props. */
  function MountSetup(
    consumer: string,
    alertTypeId: Option<string>,
    initialValues: Option<map<Key, Value>>,
    alertTypes: AlertTypeRegistry,
    actionTypes: ActionTypeRegistry,
    validateBaseProperties: Alert -> Errors,
    isValidAlert: (Alert, Errors) -> bool,
    canShowActions: bool,
    hasReloadAlerts: bool): (r: Setup)
    requires initialValues.Some? ==> IsPartial(initialValues.value)
    // the draft the flyout starts from and resets to: the caller's value for each key given, the default for every other
    ensures initialValues.Some? ==> forall k :: k in initialValues.value ==> Get(r.initialAlert, k) == initialValues.value[k]
    ensures forall k :: (initialValues.None? || k !in initialValues.value) ==>
      Get(r.initialAlert, k) == Get(Defaults(consumer, alertTypeId), k)
    // the gate and the reload follow the capabilities and props as given
    ensures r.canShowActions == canShowActions && r.hasReloadAlerts == hasReloadAlerts
    ensures r.alertTypes == alertTypes && r.actionTypes == actionTypes
  {
    Setup(InitialAlert(consumer, alertTypeId, initialValues), alertTypes, actionTypes,
          validateBaseProperties, isValidAlert, canShowActions, hasReloadAlerts)
  }

  /** `errors`: the merged error object of the draft. */
  function ErrorsOf(setup: Setup, alert: Alert): Errors {
    MergedErrors(alert, setup.alertTypes, setup.validateBaseProperties)
  }

  /**
   * `isValidAlert(alert, errors)`, judged on the merged errors; `hasErrors` is
   * its negation. Alert-type errors under keys the base-property validator
   * also reports have no say, and without an alert type only the base-property
   * errors count.
   */
  predicate IsValid(setup: Setup, alert: Alert)
    ensures TypeErrors(alert, setup.alertTypes).Keys <= setup.validateBaseProperties(alert).Keys ==>
      (IsValid(setup, alert) <==> setup.isValidAlert(alert, setup.validateBaseProperties(alert)))
    ensures AlertTypeOf(alert, setup.alertTypes).None? ==>
      (IsValid(setup, alert) <==> setup.isValidAlert(alert, setup.validateBaseProperties(alert)))
  {
    CoveredTypeErrorsVanish(alert, setup.alertTypes, setup.validateBaseProperties);
    setup.isValidAlert(alert, ErrorsOf(setup, alert))
  }

  /** `shouldConfirmSave`: the user may add actions but the draft has none. */
  predicate ShouldConfirmSave(setup: Setup, alert: Alert)
    ensures ShouldConfirmSave(setup, alert) <==> setup.canShowActions && alert.actions == []
  {
    setup.canShowActions && |alert.actions| == 0
  }

  /** The workflow's state. */
  datatype Flow = Flow(alert: Alert, isSaving: bool, confirmOpen: bool, effects: seq<Effect>)

  /** Between handlers, `isSaving` is set only while a confirmation is pending. */
  predicate AtRest(s: Flow) {
    s.isSaving ==> s.confirmOpen
  }

  /** `closeFlyout`: reset the draft to the initial one and call `onClose`; the flags are untouched. */
  function CloseStep(setup: Setup, s: Flow): (r: Flow)
    ensures r.alert == setup.initialAlert
    ensures r.isSaving == s.isSaving && r.confirmOpen == s.confirmOpen
    ensures Count(r.effects, IsClosed) == Count(s.effects, IsClosed) + 1
    ensures Count(r.effects, IsCreateCall) == Count(s.effects, IsCreateCall)
  {
    CountAppend(s.effects, [Closed], IsClosed);
    CountAppend(s.effects, [Closed], IsCreateCall);
    s.(alert := setup.initialAlert, effects := s.effects + [Closed])
  }

  /**
   * `saveAlertAndCloseFlyout`: `isSaving` ends false, the dialog flag is kept,
   * and the draft is reset exactly when an alert was created.
   */
  function SaveAndCloseStep(setup: Setup, s: Flow, response: CreateResponse): (r: Flow)
    ensures !r.isSaving && r.confirmOpen == s.confirmOpen && AtRest(r)
    ensures r.alert == if IsValid(setup, s.alert) && response.Created? then setup.initialAlert else s.alert
  {
    var att := SaveAttempt(s.alert, IsValid(setup, s.alert), response);
    var s1 := s.(isSaving := false, effects := s.effects + att.effects);
    if att.saved.Some? then
      var s2 := CloseStep(setup, s1);
      if setup.hasReloadAlerts then s2.(effects := s2.effects + [Reloaded]) else s2
    else
      s1
  }

  /**
   * The footer's `onSave`: `isSaving` stays set exactly when the save waits on
   * the confirmation dialog, which is then open with draft and log unchanged.
   */
  function OnSaveStep(setup: Setup, s: Flow, response: CreateResponse): (r: Flow)
    ensures AtRest(r)
    ensures r.isSaving <==> ShouldConfirmSave(setup, s.alert)
    ensures ShouldConfirmSave(setup, s.alert) ==> r.confirmOpen && r.alert == s.alert && r.effects == s.effects
  {
    var s1 := s.(isSaving := true);
    if ShouldConfirmSave(setup, s.alert) then s1.(confirmOpen := true)
    else SaveAndCloseStep(setup, s1, response)
  }

  /**
   * The confirmation dialog's `onConfirm`: the dialog closes, the save runs,
   * and both flags end false.
   */
  function OnConfirmStep(setup: Setup, s: Flow, response: CreateResponse): (r: Flow)
    ensures !r.isSaving && !r.confirmOpen
    ensures r.alert == if IsValid(setup, s.alert) && response.Created? then setup.initialAlert else s.alert
    // the save runs: one create call for a valid draft, a danger toast when it fails,
    // and a close (then a reload when `reloadAlerts` is given) only when an alert is created
    ensures Count(r.effects, IsCreateCall) == Count(s.effects, IsCreateCall) + (if IsValid(setup, s.alert) then 1 else 0)
    ensures Count(r.effects, IsDangerToast) == Count(s.effects, IsDangerToast) + (if IsValid(setup, s.alert) && response.CreateFailed? then 1 else 0)
    ensures Count(r.effects, IsClosed) == Count(s.effects, IsClosed) + (if IsValid(setup, s.alert) && response.Created? then 1 else 0)
    ensures Count(r.effects, IsReloaded) == Count(s.effects, IsReloaded) + (if IsValid(setup, s.alert) && response.Created? && setup.hasReloadAlerts then 1 else 0)
  {
    SaveAndCloseOutcome(setup, s.(confirmOpen := false), response);
    SaveAndCloseStep(setup, s.(confirmOpen := false), response)
  }

  /** The confirmation dialog's `onCancel`: both flags are cleared; no call is made and the draft is kept. */
  function OnConfirmCancelStep(s: Flow): (r: Flow)
    ensures !r.isSaving && !r.confirmOpen
    ensures r.alert == s.alert && r.effects == s.effects
  {
    s.(isSaving := false, confirmOpen := false)
  }

  /**
   * After a save attempt `isSaving` is false. The draft is reset and the flyout
   * closed exactly once (then reloaded when `reloadAlerts` is given) only when an
   * alert was created; otherwise the draft is kept and nothing is closed.
   */
  lemma SaveAndCloseOutcome(setup: Setup, s: Flow, response: CreateResponse)
    ensures var r := SaveAndCloseStep(setup, s, response);
      var created := IsValid(setup, s.alert) && response.Created?;
      && !r.isSaving && r.confirmOpen == s.confirmOpen
      && r.alert == (if created then setup.initialAlert else s.alert)
      && Count(r.effects, IsClosed) == Count(s.effects, IsClosed) + (if created then 1 else 0)
      && Count(r.effects, IsReloaded) == Count(s.effects, IsReloaded) + (if created && setup.hasReloadAlerts then 1 else 0)
      && Count(r.effects, IsCreateCall) == Count(s.effects, IsCreateCall) + (if IsValid(setup, s.alert) then 1 else 0)
      && Count(r.effects, IsDangerToast) == Count(s.effects, IsDangerToast) + (if IsValid(setup, s.alert) && response.CreateFailed? then 1 else 0)
  {
    var att := SaveAttempt(s.alert, IsValid(setup, s.alert), response);
    var e1 := s.effects + att.effects;
    assert Count(att.effects, IsClosed) == 0 && Count(att.effects, IsReloaded) == 0 by {
      if att.effects != [] {
        assert att.effects[1..][1..] == [];
      }
    }
    CountAppend(s.effects, att.effects, IsClosed);
    CountAppend(s.effects, att.effects, IsReloaded);
    CountAppend(s.effects, att.effects, IsCreateCall);
    CountAppend(s.effects, att.effects, IsDangerToast);
    if att.saved.Some? {
      CountAppend(e1, [Closed], IsClosed);
      CountAppend(e1, [Closed], IsReloaded);
      CountAppend(e1, [Closed], IsCreateCall);
      CountAppend(e1, [Closed], IsDangerToast);
      var e2 := e1 + [Closed];
      CountAppend(e2, [Reloaded], IsClosed);
      CountAppend(e2, [Reloaded], IsReloaded);
      CountAppend(e2, [Reloaded], IsCreateCall);
      CountAppend(e2, [Reloaded], IsDangerToast);
    }
  }

  /**
   * `onSave` sets `isSaving` first. When the user may add actions and the draft
   * has none it only opens the confirmation dialog (no create call, draft and
   * log unchanged); otherwise it saves at once and `isSaving` ends false.
   */
  lemma OnSaveOutcome(setup: Setup, s: Flow, response: CreateResponse)
    ensures var r := OnSaveStep(setup, s, response);
      && (setup.canShowActions && s.alert.actions == [] ==> r == s.(isSaving := true, confirmOpen := true))
      && (!setup.canShowActions || s.alert.actions != [] ==>
            r == SaveAndCloseStep(setup, s, response) && !r.isSaving && r.confirmOpen == s.confirmOpen)
  {
  }

  /**
   * `onSave` does not look at `hasErrors`: for a draft with errors it still
   * sets `isSaving` and may open the confirmation dialog. Only `isValidAlert`
   * inside `onSaveAlert` keeps such a draft from `createAlert`, on every path.
   */
  lemma ErroneousDraftNeverCreated(setup: Setup, s: Flow, response: CreateResponse)
    requires !IsValid(setup, s.alert)
    ensures var r := OnSaveStep(setup, s, response);
      && r.effects == s.effects && r.alert == s.alert
      && r.isSaving == ShouldConfirmSave(setup, s.alert)
      && r.confirmOpen == (ShouldConfirmSave(setup, s.alert) || s.confirmOpen)
    ensures var r := OnConfirmStep(setup, s, response);
      r.effects == s.effects && r.alert == s.alert && !r.isSaving && !r.confirmOpen
  {
    assert s.effects + [] == s.effects;
  }

  /** Every handler keeps the effect log's protocol. */
  lemma StepsKeepProtocol(setup: Setup, s: Flow, response: CreateResponse)
    requires Protocol(s.effects)
    ensures Protocol(CloseStep(setup, s).effects)
    ensures Protocol(SaveAndCloseStep(setup, s, response).effects)
    ensures Protocol(OnSaveStep(setup, s, response).effects)
    ensures Protocol(OnConfirmStep(setup, s, response).effects)
    ensures Protocol(OnConfirmCancelStep(s).effects)
  {
    ProtocolAppend(s.effects, [Closed]);
    SaveKeepsProtocol(setup, s, response);
    SaveKeepsProtocol(setup, s.(isSaving := true), response);
    SaveKeepsProtocol(setup, s.(confirmOpen := false), response);
  }

  lemma SaveKeepsProtocol(setup: Setup, s: Flow, response: CreateResponse)
    requires Protocol(s.effects)
    ensures Protocol(SaveAndCloseStep(setup, s, response).effects)
  {
    var att := SaveAttempt(s.alert, IsValid(setup, s.alert), response);
    var e1 := s.effects + att.effects;
    ProtocolAppend(s.effects, att.effects);
    if att.saved.Some? {
      ProtocolAppend(e1, [Closed]);
      var e2 := e1 + [Closed];
      if setup.hasReloadAlerts {
        var e3 := e2 + [Reloaded];
        forall i | 0 <= i < |e3|
          ensures WellPlaced(e3, i)
        {
          if i < |e2| {
            assert WellPlaced(e2, i);
            assert e3[i] == e2[i];
            if 0 < i { assert e3[i - 1] == e2[i - 1]; }
            if e2[i].CreateCall? { assert e3[i + 1] == e2[i + 1]; }
          }
        }
      }
    }
  }

  /**
   * A valid draft with no actions, submitted by a user who may add actions:
   * the dialog opens; cancelling it leaves both flags false and makes no call.
   */
  lemma ConfirmThenCancel(setup: Setup, s: Flow, response: CreateResponse)
    requires setup.canShowActions && s.alert.actions == []
    ensures var waiting := OnSaveStep(setup, s, response);
      && waiting.isSaving && waiting.confirmOpen && waiting.effects == s.effects
      && OnConfirmCancelStep(waiting) == s.(isSaving := false, confirmOpen := false)
  {
  }

  /**
   * The same draft, confirmed, with the backend creating "My Alert": one
   * create call, a success toast naming it, the draft reset and the flyout closed.
   */
  lemma ConfirmThenCreated(setup: Setup, s: Flow)
    requires setup.canShowActions && s.alert.actions == [] && IsValid(setup, s.alert)
    requires !setup.hasReloadAlerts
    ensures var r := OnConfirmStep(setup, OnSaveStep(setup, s, Created("My Alert")), Created("My Alert"));
      && r.effects == s.effects + [CreateCall(s.alert), SuccessToast("My Alert"), Closed]
      && r.alert == setup.initialAlert && !r.isSaving && !r.confirmOpen
  {
  }

  /** With an action attached, `onSave` saves at once whatever the user's capabilities. */
  lemma ActionAttachedSavesDirectly(setup: Setup, s: Flow, response: CreateResponse)
    requires |s.alert.actions| > 0 && IsValid(setup, s.alert)
    ensures var r := OnSaveStep(setup, s, response);
      && r.confirmOpen == s.confirmOpen && !r.isSaving
      && Count(r.effects, IsCreateCall) == Count(s.effects, IsCreateCall) + 1
  {
    SaveAndCloseOutcome(setup, s.(isSaving := true), response);
  }

  /** The create-alert flyout's state and handlers. */
  class AlertAddFlyout {
    const setup: Setup
    /** The `alertTypeId` prop, which the mount effect copies into the draft. */
    const alertTypeIdProp: Option<string>

    var alert: Alert
    var isSaving: bool
    var isConfirmAlertSaveModalOpen: bool
    var effects: seq<Effect>

    /** The effect log keeps its protocol, and at rest `isSaving` implies the dialog is open. */
    ghost predicate Valid()
      reads this
    {
      Protocol(effects) && AtRest(State())
    }

    function State(): Flow
      reads this
    {
      Flow(alert, isSaving, isConfirmAlertSaveModalOpen, effects)
    }

    constructor (
      consumer: string,
      alertTypeId: Option<string>,
      initialValues: Option<map<Key, Value>>,
      alertTypes: AlertTypeRegistry,
      actionTypes: ActionTypeRegistry,
      validateBaseProperties: Alert -> Errors,
      isValidAlert: (Alert, Errors) -> bool,
      canShowActions: bool,
      hasReloadAlerts: bool)
      requires initialValues.Some? ==> IsPartial(initialValues.value)
      ensures Valid()
      ensures setup == MountSetup(consumer, alertTypeId, initialValues, alertTypes, actionTypes,
                                  validateBaseProperties, isValidAlert, canShowActions, hasReloadAlerts)
      ensures alertTypeIdProp == alertTypeId
      ensures alert == setup.initialAlert && !isSaving && !isConfirmAlertSaveModalOpen && effects == []
    {
      var mounted := MountSetup(consumer, alertTypeId, initialValues, alertTypes, actionTypes,
                                validateBaseProperties, isValidAlert, canShowActions, hasReloadAlerts);
      setup := mounted;
      alertTypeIdProp := alertTypeId;
      alert := mounted.initialAlert;
      isSaving := false;
      isConfirmAlertSaveModalOpen := false;
      effects := [];
    }

    /** `dispatch`: apply one reducer command to the draft. */
    method Dispatch(cmd: Command)
      requires Valid() && WellFormed(cmd)
      modifies this`alert
      ensures Valid()
      ensures alert == Reduce(old(alert), cmd)
    {
      alert := Reduce(alert, cmd);
    }

    /** The mount effect: `setAlertProperty('alertTypeId', alertTypeId ?? null)`. */
    method SyncAlertTypeId()
      requires Valid()
      modifies this`alert
      ensures Valid()
      ensures alert == Reduce(old(alert), SetProperty(AlertTypeIdKey, OptText(alertTypeIdProp)))
      ensures alert.alertTypeId == alertTypeIdProp
    {
      Dispatch(SetProperty(AlertTypeIdKey, OptText(alertTypeIdProp)));
    }

    /** `closeFlyout`, also the footer's and the flyout's `onCancel`/`onClose`. */
    method CloseFlyout()
      requires Valid()
      modifies this`alert, this`effects
      ensures Valid()
      ensures State() == CloseStep(setup, old(State()))
    {
      alert := setup.initialAlert;
      effects := effects + [Closed];
      ProtocolAppend(old(effects), [Closed]);
    }

    /** `onSaveAlert`: returns the created alert's name, or `None` for undefined. */
    method OnSaveAlert(response: CreateResponse) returns (saved: Option<string>)
      requires Protocol(effects)
      modifies this`effects
      ensures Protocol(effects)
      ensures var att := SaveAttempt(alert, IsValid(setup, alert), response);
        effects == old(effects) + att.effects && saved == att.saved
    {
      saved := None;
      if setup.isValidAlert(alert, MergedErrors(alert, setup.alertTypes, setup.validateBaseProperties)) {
        effects := effects + [CreateCall(alert)];
        match response
        case Created(name) =>
          effects := effects + [SuccessToast(name)];
          saved := Some(name);
        case CreateFailed(message) =>
          effects := effects + [DangerToast(message.GetOr(CannotCreateAlert))];
      }
      var att := SaveAttempt(alert, IsValid(setup, alert), response);
      assert effects == old(effects) + att.effects;
      ProtocolAppend(old(effects), att.effects);
    }

    /** `saveAlertAndCloseFlyout`. */
    method SaveAlertAndCloseFlyout(response: CreateResponse)
      requires Protocol(effects)
      modifies this`alert, this`isSaving, this`effects
      ensures Valid()
      ensures State() == SaveAndCloseStep(setup, old(State()), response)
    {
      var saved := OnSaveAlert(response);
      isSaving := false;
      if saved.Some? {
        CloseFlyout();
        if setup.hasReloadAlerts {
          effects := effects + [Reloaded];
        }
      }
      StepsKeepProtocol(setup, old(State()), response);
    }

    /** The footer's `onSave`. */
    method OnSave(response: CreateResponse)
      requires Valid()
      modifies this
      ensures Valid()
      ensures State() == OnSaveStep(setup, old(State()), response)
    {
      isSaving := true;
      if setup.canShowActions && |alert.actions| == 0 {
        isConfirmAlertSaveModalOpen := true;
      } else {
        SaveAlertAndCloseFlyout(response);
      }
    }

    /** The confirmation dialog's `onConfirm`; the dialog is shown only while it is open. */
    method OnConfirm(response: CreateResponse)
      requires Valid() && isConfirmAlertSaveModalOpen
      modifies this
      ensures Valid()
      ensures State() == OnConfirmStep(setup, old(State()), response)
    {
      isConfirmAlertSaveModalOpen := false;
      SaveAlertAndCloseFlyout(response);
    }

    /** The confirmation dialog's `onCancel`. */
    method OnConfirmCancel()
      requires Valid() && isConfirmAlertSaveModalOpen
      modifies this`isSaving, this`isConfirmAlertSaveModalOpen
      ensures Valid()
      ensures State() == OnConfirmCancelStep(old(State()))
    {
      isSaving := false;
      isConfirmAlertSaveModalOpen := false;
    }
  }
}
