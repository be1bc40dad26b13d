/**
 * The alert draft edited by the create-alert flyout: its fields, the initial
 * draft built from fixed defaults and the caller's `initialValues`, and the two
 * reducer commands (`setAlert`, `setProperty`) that change it.
 */
module AlertDraft {
  import opened Wrappers

  /** A type-specific parameter bag; only the validators look inside it. */
  type Params = map<string, string>

  datatype Schedule = Schedule(interval: string)

  /** One action attached to the alert; its position in `actions` is its identity. */
  datatype AlertAction = AlertAction(group: string, id: string, actionTypeId: string, params: Params)

  /** The draft. `None` stands for a field that is absent (undefined) or null. */
  datatype Alert = Alert(
    name: Option<string>,
    consumer: string,
    alertTypeId: Option<string>,
    params: Params,
    schedule: Schedule,
    actions: seq<AlertAction>,
    tags: seq<string>,
    notifyWhen: Option<string>,
    throttle: Option<string>)

  /** The top-level keys of a draft. */
  datatype Key =
    | NameKey | ConsumerKey | AlertTypeIdKey | ParamsKey | ScheduleKey
    | ActionsKey | TagsKey | NotifyWhenKey | ThrottleKey

  /** The value held under one key; `OptText(None)` is an absent or null field. */
  datatype Value =
    | OptText(opt: Option<string>)
    | Text(text: string)
    | ParamsValue(params: Params)
    | ScheduleValue(schedule: Schedule)
    | ActionsValue(actions: seq<AlertAction>)
    | TagsValue(tags: seq<string>)

  /** `v` has the type that key `k` holds. */
  predicate Fits(k: Key, v: Value) {
    match k
    case NameKey | AlertTypeIdKey | NotifyWhenKey | ThrottleKey => v.OptText?
    case ConsumerKey => v.Text?
    case ParamsKey => v.ParamsValue?
    case ScheduleKey => v.ScheduleValue?
    case ActionsKey => v.ActionsValue?
    case TagsKey => v.TagsValue?
  }

  /** A `Partial<Alert>`: some of the keys, each with a value of that key's type. */
  predicate IsPartial(m: map<Key, Value>) {
    forall k :: k in m ==> Fits(k, m[k])
  }

  /** Reads one field of the draft. */
  function Get(a: Alert, k: Key): (v: Value)
    ensures Fits(k, v)
  {
    match k
    case NameKey => OptText(a.name)
    case ConsumerKey => Text(a.consumer)
    case AlertTypeIdKey => OptText(a.alertTypeId)
    case ParamsKey => ParamsValue(a.params)
    case ScheduleKey => ScheduleValue(a.schedule)
    case ActionsKey => ActionsValue(a.actions)
    case TagsKey => TagsValue(a.tags)
    case NotifyWhenKey => OptText(a.notifyWhen)
    case ThrottleKey => OptText(a.throttle)
  }

  /** Replaces one field of the draft; every other field keeps its value. */
  function With(a: Alert, k: Key, v: Value): (r: Alert)
    requires Fits(k, v)
    ensures forall k' :: Get(r, k') == if k' == k then v else Get(a, k')
  {
    match k
    case NameKey => a.(name := v.opt)
    case ConsumerKey => a.(consumer := v.text)
    case AlertTypeIdKey => a.(alertTypeId := v.opt)
    case ParamsKey => a.(params := v.params)
    case ScheduleKey => a.(schedule := v.schedule)
    case ActionsKey => a.(actions := v.actions)
    case TagsKey => a.(tags := v.tags)
    case NotifyWhenKey => a.(notifyWhen := v.opt)
    case ThrottleKey => a.(throttle := v.opt)
  }

  /** Two drafts that agree on every key are the same draft. */
  lemma FieldsDetermineAlert(a: Alert, b: Alert)
    requires forall k :: Get(a, k) == Get(b, k)
    ensures a == b
  {
    assert Get(a, NameKey) == Get(b, NameKey);
    assert Get(a, ConsumerKey) == Get(b, ConsumerKey);
    assert Get(a, AlertTypeIdKey) == Get(b, AlertTypeIdKey);
    assert Get(a, ParamsKey) == Get(b, ParamsKey);
    assert Get(a, ScheduleKey) == Get(b, ScheduleKey);
    assert Get(a, ActionsKey) == Get(b, ActionsKey);
    assert Get(a, TagsKey) == Get(b, TagsKey);
    assert Get(a, NotifyWhenKey) == Get(b, NotifyWhenKey);
    assert Get(a, ThrottleKey) == Get(b, ThrottleKey);
  }

  const DefaultInterval := "1m"
  const DefaultNotifyWhen := "onActionGroupChange"

  /** The fixed defaults of a new draft, before the caller's `initialValues`. */
  function Defaults(consumer: string, alertTypeId: Option<string>): Alert {
    Alert(None, consumer, alertTypeId, map[], Schedule(DefaultInterval), [], [], Some(DefaultNotifyWhen), None)
  }

  /** One key of `{...defaults, ...overrides}`: the override when the key is present. */
  function Pick(overrides: map<Key, Value>, defaults: Alert, k: Key): (v: Value)
    requires IsPartial(overrides)
    ensures Fits(k, v)
  {
    if k in overrides then overrides[k] else Get(defaults, k)
  }

  /**
   * The draft the flyout starts from (and resets to): the defaults, with every
   * key present in `initialValues` taking the caller's value and every other
   * key keeping its default.
   */
  function InitialAlert(consumer: string, alertTypeId: Option<string>, initialValues: Option<map<Key, Value>>): (r: Alert)
    requires initialValues.Some? ==> IsPartial(initialValues.value)
    ensures forall k ::
      Get(r, k) == if initialValues.Some? && k in initialValues.value then initialValues.value[k]
                   else Get(Defaults(consumer, alertTypeId), k)
  {
    var o := if initialValues.Some? then initialValues.value else map[];
    var d := Defaults(consumer, alertTypeId);
    Alert(
      name := Pick(o, d, NameKey).opt,
      consumer := Pick(o, d, ConsumerKey).text,
      alertTypeId := Pick(o, d, AlertTypeIdKey).opt,
      params := Pick(o, d, ParamsKey).params,
      schedule := Pick(o, d, ScheduleKey).schedule,
      actions := Pick(o, d, ActionsKey).actions,
      tags := Pick(o, d, TagsKey).tags,
      notifyWhen := Pick(o, d, NotifyWhenKey).opt,
      throttle := Pick(o, d, ThrottleKey).opt)
  }

  /** Without `initialValues` the initial draft is exactly the defaults. */
  lemma InitialAlertWithoutOverrides(consumer: string, alertTypeId: Option<string>)
    ensures InitialAlert(consumer, alertTypeId, None) == Defaults(consumer, alertTypeId)
    ensures var r := InitialAlert(consumer, alertTypeId, None);
      && r.params == map[] && r.schedule.interval == "1m" && r.actions == [] && r.tags == []
      && r.notifyWhen == Some("onActionGroupChange") && r.consumer == consumer && r.alertTypeId == alertTypeId
  {
    FieldsDetermineAlert(InitialAlert(consumer, alertTypeId, None), Defaults(consumer, alertTypeId));
  }

  /** The commands of the draft reducer. */
  datatype Command =
    | SetAlert(alert: Alert)
    | SetProperty(key: Key, value: Value)

  predicate WellFormed(cmd: Command) {
    cmd.SetProperty? ==> Fits(cmd.key, cmd.value)
  }

  /** `setAlert` replaces the whole draft; `setProperty` replaces one field and nothing else. */
  function Reduce(a: Alert, cmd: Command): (r: Alert)
    requires WellFormed(cmd)
    ensures cmd.SetAlert? ==> r == cmd.alert
    ensures cmd.SetProperty? ==> Get(r, cmd.key) == cmd.value
    ensures cmd.SetProperty? ==> forall k :: k != cmd.key ==> Get(r, k) == Get(a, k)
  {
    match cmd
    case SetAlert(v) => v
    case SetProperty(k, v) => With(a, k, v)
  }

  /** Setting two different properties gives the same draft in either order. */
  lemma SetPropertiesCommute(a: Alert, k1: Key, v1: Value, k2: Key, v2: Value)
    requires k1 != k2 && Fits(k1, v1) && Fits(k2, v2)
    ensures Reduce(Reduce(a, SetProperty(k1, v1)), SetProperty(k2, v2))
         == Reduce(Reduce(a, SetProperty(k2, v2)), SetProperty(k1, v1))
  {
    FieldsDetermineAlert(With(With(a, k1, v1), k2, v2), With(With(a, k2, v2), k1, v1));
  }

  /** Setting the same property twice keeps only the second value. */
  lemma SetPropertyLastWins(a: Alert, k: Key, v1: Value, v2: Value)
    requires Fits(k, v1) && Fits(k, v2)
    ensures Reduce(Reduce(a, SetProperty(k, v1)), SetProperty(k, v2)) == Reduce(a, SetProperty(k, v2))
  {
    FieldsDetermineAlert(With(With(a, k, v1), k, v2), With(a, k, v2));
  }
}
