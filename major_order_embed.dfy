/**
 * The major-order embed document: a fixed colour, title, description and
 * footer, and five fields built from the order, the symbol table and the
 * current time.
 */
module MajorOrderEmbed {
  import opened Wrappers
  import opened JsValues
  import opened Orders
  import opened ProgressBar

  datatype Field = Field(name: string, value: string, inline: bool)

  datatype Embed = Embed(color: string, title: string, description: string, fields: seq<Field>, footer: string)

  /** The TypeError that escapes the builder, by the access that threw. */
  datatype EmbedError =
    | NoSetting        // majorOrder.setting is missing
    | NoTaskList       // setting.tasks is missing
    | NoProgress       // majorOrder.progress is missing
    | NoFirstTask      // tasks[0] is undefined or null
    | NoValues         // tasks[0].values is missing
    | NoReward         // setting.reward is missing
    | BarFailed(bar: BarError)

  const Color: string := "#FFD700"
  const TitleSuffix: string := "THIS IS IN ALPHA"
  const Description: string := "> ```Use the repaired DSS to repel the ongoing Illuminate invasions.```"
  const FooterText: string := "Freedom News Network | Inspired by Winter-06 | v. 1.0.0"

  /** Field names and inline flags, in order. */
  const Layout: seq<(string, bool)> :=
    [("** **", false), ("Progress", false), ("Rewards", true), ("Ends", true), ("Message ID", false)]

  /** `${emojiMap[key]}`: "undefined" for a key the table lacks. */
  function Emoji(emoji: map<string, string>, key: string): string {
    if key in emoji then emoji[key] else "undefined"
  }

  /** `${n}` for a number that may be undefined. */
  function ShowNum(n: Option<int>): string {
    Show(if n.Some? then Num(n.value) else Undefined)
  }

  function Title(emoji: map<string, string>): string {
    Emoji(emoji, "Alert") + " Major Order " + Emoji(emoji, "Alert") + " | " + TitleSuffix
  }

  /** The faction label of the objective line. */
  function FactionLabel(values: seq<int>, emoji: map<string, string>): (name: string)
    ensures name == Emoji(emoji, "Illuminate") + " Illuminate" <==> IsIlluminate(values)
    ensures !IsIlluminate(values) ==> name == "Unknown Faction"
  {
    if IsIlluminate(values) then Emoji(emoji, "Illuminate") + " Illuminate"
    else
      var other := Emoji(emoji, "Illuminate") + " Illuminate";
      assert other[|other| - 1] == 'e';
      "Unknown Faction"
  }

  /** `emojiMap[reward.type] || emojiMap.DefaultReward`. */
  function RewardSymbol(reward: Reward, emoji: map<string, string>): (sym: string)
    ensures Show(reward.kind) in emoji && emoji[Show(reward.kind)] != "" ==> sym == emoji[Show(reward.kind)]
    ensures Show(reward.kind) !in emoji || emoji[Show(reward.kind)] == "" ==> sym == Emoji(emoji, "DefaultReward")
  {
    var key := Show(reward.kind);
    if key in emoji && emoji[key] != "" then emoji[key] else Emoji(emoji, "DefaultReward")
  }

  /** `Math.floor(nowMs / 1000) + expiresIn`, in epoch seconds. */
  function EndTimestamp(nowMs: int, expiresIn: int): (ts: int)
    ensures (ts - expiresIn) * 1000 <= nowMs < (ts - expiresIn + 1) * 1000
  {
    nowMs / 1000 + expiresIn
  }

  function ObjectiveText(total: Option<int>, values: seq<int>, emoji: map<string, string>): string {
    "> " + Emoji(emoji, "TaskIncomplete") + " Defend against " + ShowNum(total)
      + " attacks from the " + FactionLabel(values, emoji) + "."
  }

  function ProgressText(progress: Option<int>, total: Option<int>, bar: string): string {
    "Current progress: **" + ShowNum(progress) + "/" + ShowNum(total) + "**\n" + bar
  }

  function EndsText(ts: int): string {
    "<t:" + IntToString(ts) + ":R> (<t:" + IntToString(ts) + ":F>)"
  }

  function MessageIdText(id32: JsValue): string {
    "`#" + Show(id32) + "`"
  }

  /** Everything the builder reads is present (the bar may still fail). */
  predicate Readable(o: Order) {
    && o.setting.Some?
    && o.progress.Some?
    && FirstTask(o).Some?
    && FirstTask(o).value.values.Some?
    && o.setting.value.reward.Some?
  }

  /** The task's total required, `tasks[0].values[0]`. */
  function TotalOf(o: Order): Option<int>
    requires Readable(o)
  {
    At(FirstTask(o).value.values.value, 0)
  }

  /** The order's progress, `progress[0]`. */
  function ProgressOf(o: Order): Option<int>
    requires Readable(o)
  {
    At(o.progress.value, 0)
  }

  /** The rendered bar of a readable order. */
  function BarOf(o: Order, emoji: map<string, string>): Result<string, BarError>
    requires Readable(o)
  {
    RenderBar(ProgressOf(o), TotalOf(o), emoji, DefaultBarLength)
  }

  /**
   * `createMajorOrderEmbed(majorOrder)` at time nowMs. The percentage shown
   * after the bar is not modelled.
   */
  function BuildEmbed(o: Order, emoji: map<string, string>, nowMs: int): (r: Result<Embed, EmbedError>)
    ensures r.Success? <==> Readable(o) && BarOf(o, emoji).Success?
    ensures r.Success? ==>
              && |r.value.fields| == |Layout|
              && (forall i :: 0 <= i < |Layout| ==> (r.value.fields[i].name, r.value.fields[i].inline) == Layout[i])
              && r.value.color == Color
              && r.value.title == Title(emoji)
              && r.value.description == Description
              && r.value.footer == FooterText
  {
    if o.setting.None? then Failure(NoSetting)
    else if o.setting.value.tasks.Absent? then Failure(NoTaskList)
    else if o.progress.None? then Failure(NoProgress)
    else if FirstTask(o).None? then Failure(NoFirstTask)
    else if FirstTask(o).value.values.None? then Failure(NoValues)
    else if o.setting.value.reward.None? then Failure(NoReward)
    else
      var task := FirstTask(o).value;
      var values := task.values.value;
      var progress := At(o.progress.value, 0);
      var total := At(values, 0);
      var reward := o.setting.value.reward.value;
      match RenderBar(progress, total, emoji, DefaultBarLength)
      case Failure(e) => Failure(BarFailed(e))
      case Success(bar) =>
        Success(Embed(
          Color,
          Title(emoji),
          Description,
          [ Field("** **", ObjectiveText(total, values, emoji), false),
            Field("Progress", ProgressText(progress, total, bar), false),
            Field("Rewards", Show(reward.amount) + " " + RewardSymbol(reward, emoji), true),
            Field("Ends", EndsText(EndTimestamp(nowMs, o.expiresIn)), true),
            Field("Message ID", MessageIdText(o.id32), false) ],
          FooterText))
  }

  /**
   * The field values of a built embed: the objective names the total and the
   * faction, Progress shows progress/total and the bar, Rewards the amount
   * and symbol, Ends the end timestamp twice, Message ID the order id.
   */
  lemma EmbedFieldValues(o: Order, emoji: map<string, string>, nowMs: int)
    requires BuildEmbed(o, emoji, nowMs).Success?
    ensures var e := BuildEmbed(o, emoji, nowMs).value;
      && e.fields[0].value == ObjectiveText(TotalOf(o), FirstTask(o).value.values.value, emoji)
      && e.fields[1].value == ProgressText(ProgressOf(o), TotalOf(o), BarOf(o, emoji).value)
      && e.fields[2].value == Show(o.setting.value.reward.value.amount) + " "
                              + RewardSymbol(o.setting.value.reward.value, emoji)
      && e.fields[3].value == EndsText(nowMs / 1000 + o.expiresIn)
      && e.fields[4].value == MessageIdText(o.id32)
  {
  }

  /**
   * The task-type label is computed by the builder but shown in no field:
   * changing the task's type code leaves the embed unchanged.
   */
  lemma EmbedIgnoresTaskType(o: Order, emoji: map<string, string>, nowMs: int, kind: Option<int>)
    requires FirstTask(o).Some?
    ensures var t := FirstTask(o).value;
            var ts := o.setting.value.tasks.entries;
            var o2 := o.(setting := Some(o.setting.value.(tasks := Items(ts[0 := Some(t.(kind := kind))]))));
            BuildEmbed(o2, emoji, nowMs) == BuildEmbed(o, emoji, nowMs)
  {
  }

  /** Orders with numeric ids get equal Message ID fields only when their ids are equal. */
  lemma MessageIdIdentifiesOrder(a: int, b: int)
    requires MessageIdText(Num(a)) == MessageIdText(Num(b))
    ensures a == b
  {
    var sa, sb := IntToString(a), IntToString(b);
    assert MessageIdText(Num(a))[2..|MessageIdText(Num(a))| - 1] == sa;
    assert MessageIdText(Num(b))[2..|MessageIdText(Num(b))| - 1] == sb;
    IntToStringInjective(a, b);
  }

  /** Any missing piece the builder reads makes it throw, never build. */
  lemma MissingPieceThrows(o: Order, emoji: map<string, string>, nowMs: int)
    requires o.setting.None? || o.progress.None? || FirstTask(o).None?
             || FirstTask(o).value.values.None? || o.setting.value.reward.None?
    ensures BuildEmbed(o, emoji, nowMs).Failure?
    ensures !BuildEmbed(o, emoji, nowMs).error.BarFailed?
  {
  }
}
