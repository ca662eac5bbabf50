/**
 * The war-assignment ("major order") records the game-status API returns,
 * and the shape check the reconciliation cycle applies to the first one.
 * Only the parts the bot reads are modelled.
 */
module Orders {
  import opened Wrappers
  import opened JsValues

  /** One task of an order: its type code and its values (total, faction, ...). */
  datatype Task = Task(kind: Option<int>, values: Option<seq<int>>)

  /**
   * `setting.tasks`: missing (any falsy value), present but not an array, or
   * an array whose entries may be null.
   */
  datatype TaskList = Absent | NotArray | Items(entries: seq<Option<Task>>)

  datatype Reward = Reward(kind: JsValue, amount: JsValue)

  datatype Setting = Setting(tasks: TaskList, reward: Option<Reward>)

  /** One API order; `progress` is parallel to `setting.tasks`. */
  datatype Order = Order(id32: JsValue, setting: Option<Setting>, progress: Option<seq<int>>, expiresIn: int)

  /** The API's reply: None when the request failed, else the list (entries may be null). */
  type ApiResult = Option<seq<Option<Order>>>

  /** Task type code of a defense task. */
  const DefenseType: int := 12
  /** Faction code of the Illuminate. */
  const IlluminateCode: int := 4

  /** `s[i]` on an array of numbers: undefined past the end. */
  function At(s: seq<int>, i: nat): (v: Option<int>)
    ensures v.Some? <==> i < |s|
    ensures v.Some? ==> v.value == s[i]
  {
    if i < |s| then Some(s[i]) else None
  }

  /**
   * `setting.tasks[0]` as a task: None when the access throws or yields
   * undefined/null (no setting, no task array, an empty array, a null entry);
   * a non-array task list is taken to have no element 0.
   */
  function FirstTask(o: Order): (t: Option<Task>)
    ensures t.Some? ==>
              && o.setting.Some? && o.setting.value.tasks.Items?
              && |o.setting.value.tasks.entries| > 0
              && o.setting.value.tasks.entries[0] == Some(t.value)
    ensures o.setting.Some? && o.setting.value.tasks.Items? && |o.setting.value.tasks.entries| > 0 ==>
              t == o.setting.value.tasks.entries[0]
  {
    if o.setting.None? then None
    else match o.setting.value.tasks
      case Items(ts) => if |ts| > 0 then ts[0] else None
      case _ => None
  }

  /** The task-type label shared by the embed and the voice-channel name. */
  function TaskLabel(t: Task): (name: string)
    ensures name == "Defense" <==> t.kind == Some(DefenseType)
    ensures name != "Defense" ==> name == "Unknown Task"
  {
    if t.kind == Some(DefenseType) then "Defense" else "Unknown Task"
  }

  /** The faction code `values[1]` names the Illuminate. */
  predicate IsIlluminate(values: seq<int>) {
    At(values, 1) == Some(IlluminateCode)
  }

  /** What the shape check accepts, stated as one condition. */
  predicate WellShaped(o: Order) {
    && o.setting.Some?
    && o.setting.value.tasks.Items?
    && |o.setting.value.tasks.entries| > 0
    && o.setting.value.tasks.entries[0].Some?
    && o.setting.value.tasks.entries[0].value.kind.Some?
    && o.setting.value.tasks.entries[0].value.kind.value != 0
    && o.setting.value.tasks.entries[0].value.values.Some?
  }

  /**
   * Outcome of the checks before settings are read: no data, a malformed
   * order, a TypeError (null first order or null first task), or the order.
   */
  datatype Validation = NoData | Malformed | Throws | Valid(order: Order)

  /** Whether reading the order's fields throws before the shape check decides. */
  predicate ValidationThrows(api: ApiResult)
    requires api.Some? && |api.value| > 0
  {
    || api.value[0].None?
    || (var o := api.value[0].value;
        o.setting.Some? && o.setting.value.tasks.Items? && |o.setting.value.tasks.entries| > 0
        && o.setting.value.tasks.entries[0].None?)
  }

  /** The checks of `fetchMajorOrder` before settings are read, in their order. */
  function Validate(api: ApiResult): (v: Validation)
    ensures v == NoData <==> api.None? || api.value == []
    ensures v == Throws <==> api.Some? && |api.value| > 0 && ValidationThrows(api)
    ensures v.Valid? <==> api.Some? && |api.value| > 0 && api.value[0].Some? && WellShaped(api.value[0].value)
    ensures v.Valid? ==> v.order == api.value[0].value
  {
    if api.None? || api.value == [] then NoData
    else if api.value[0].None? then Throws
    else
      var o := api.value[0].value;
      if o.setting.None? then Malformed
      else match o.setting.value.tasks
        case Absent => Malformed
        case NotArray => Malformed
        case Items(ts) =>
          if ts == [] then Malformed
          else if ts[0].None? then Throws
          else if ts[0].value.kind.None? || ts[0].value.kind.value == 0 then Malformed
          else if ts[0].value.values.None? then Malformed
          else Valid(o)
  }

  /** A task of type 0 is rejected even when everything else is present. */
  lemma TypeZeroRejected(o: Order)
    requires FirstTask(o).Some? && FirstTask(o).value.kind == Some(0)
    ensures Validate(Some([Some(o)])) == Malformed
  {
  }
}
