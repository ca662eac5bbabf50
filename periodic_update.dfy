/**
 * The scheduler: the timer period derived from UPDATE_INTERVAL_SECONDS, and
 * the timer callback, which runs one reconciliation cycle and then, when it
 * returned an order, the voice-channel update; an exception in a tick is
 * caught and the next tick runs as usual.
 */
module PeriodicUpdate {
  import opened Wrappers
  import opened Orders
  import opened JsValues
  import opened MajorOrderHandler

  /** Interval used when UPDATE_INTERVAL_SECONDS is unset or 0: one hour. */
  const DefaultIntervalSeconds: int := 3600
  /** Floor on the interval, in seconds. */
  const MinIntervalSeconds: int := 2

  /** `settings.UPDATE_INTERVAL_SECONDS || 3600`. */
  function BaseInterval(configured: Option<int>): (secs: int)
    ensures configured.Some? && configured.value != 0 ==> secs == configured.value
    ensures configured.None? || configured.value == 0 ==> secs == DefaultIntervalSeconds
  {
    if configured.Some? && configured.value != 0 then configured.value else DefaultIntervalSeconds
  }

  /** `Math.max(updateInterval, 2)`. */
  function SafeInterval(configured: Option<int>): (secs: int)
    ensures secs >= MinIntervalSeconds
    ensures secs == BaseInterval(configured) || secs == MinIntervalSeconds
    ensures BaseInterval(configured) >= MinIntervalSeconds ==> secs == BaseInterval(configured)
  {
    var base := BaseInterval(configured);
    if base < MinIntervalSeconds then MinIntervalSeconds else base
  }

  /** The `setInterval` period in milliseconds: never below two seconds. */
  function PeriodMs(configured: Option<int>): (ms: int)
    ensures ms >= 1000 * MinIntervalSeconds
    ensures ms % 1000 == 0 && ms / 1000 == SafeInterval(configured)
  {
    SafeInterval(configured) * 1000
  }

  /** The largest delay the timer honours; a larger one is replaced by 1 ms. */
  const MaxTimerDelayMs: int := 2147483647

  /**
   * The delay the timer actually waits for the requested period: a period
   * above the 32-bit limit or below 1 ms becomes 1 ms.
   */
  function TimerDelayMs(periodMs: int): (ms: int)
    ensures 1 <= periodMs <= MaxTimerDelayMs ==> ms == periodMs
    ensures periodMs > MaxTimerDelayMs || periodMs < 1 ==> ms == 1
    ensures 1 <= ms <= MaxTimerDelayMs
  {
    if periodMs > MaxTimerDelayMs || periodMs < 1 then 1 else periodMs
  }

  /**
   * The two-second floor holds for intervals up to 2147483 seconds; any
   * configured interval of 2147484 seconds or more makes a 1 ms timer.
   */
  lemma LargeIntervalRunsAway(configured: int)
    requires configured >= 2147484
    ensures TimerDelayMs(PeriodMs(Some(configured))) == 1
  {
    assert SafeInterval(Some(configured)) == configured;
  }

  /** Within the limit, the timer waits at least two seconds. */
  lemma SmallIntervalKeepsFloor(configured: Option<int>)
    requires configured.None? || configured.value <= 2147483
    ensures 2000 <= TimerDelayMs(PeriodMs(configured)) <= MaxTimerDelayMs
  {
  }

  /**
   * `startPeriodicUpdates(client)`: None when client.settings was never
   * assigned (reading its interval throws), else the timer period.
   */
  method StartPeriodicUpdates(client: Client) returns (periodMs: Option<int>)
    ensures periodMs.None? <==> client.settings.None?
    ensures periodMs.Some? ==> periodMs == Some(PeriodMs(client.settings.value.intervalSeconds))
    ensures periodMs.Some? ==> periodMs.value >= 2000
  {
    if client.settings.None? {
      return None;
    }
    var secs := SafeInterval(client.settings.value.intervalSeconds);
    periodMs := Some(secs * 1000);
  }

  /** What one tick's inputs are: the API reply, the clock, the id a sent message gets. */
  datatype TickInput = TickInput(api: ApiResult, nowMs: int, freshId: string)

  /** How one tick ended; FetchThrew and VcThrew are caught exceptions. */
  datatype TickOutcome = FetchThrew | NoOrder | VcThrew | Completed

  /** One timer tick on world w, with `client.settings` equal to `settings`. */
  function TickSpec(w: World, settings: Option<Settings>, emoji: map<string, string>, input: TickInput)
    : (r: (World, TickOutcome))
    ensures var c := Cycle(w, emoji, input.api, input.nowMs, input.freshId);
      && (r.1 == FetchThrew <==> c.1 == Threw)
      && (r.1 == NoOrder <==> c.1 == Returned(None))
      && (r.1 == VcThrew <==> c.1.Returned? && c.1.order.Some? && settings.None?)
      && (r.1 == Completed <==> c.1.Returned? && c.1.order.Some? && settings.Some?)
      && (r.1 == Completed ==> r.0 == c.0.(channels := VcUpdate(settings.value, c.0.channels, c.1.order.value).0))
      && (r.1 != Completed ==> r.0 == c.0)
    ensures r.1 == FetchThrew || r.1 == NoOrder ==> r.0 == w
    ensures KeepsMessages(w.channels, r.0.channels)
  {
    var (w1, fetched) := Cycle(w, emoji, input.api, input.nowMs, input.freshId);
    match fetched
    case Threw => (w1, FetchThrew)
    case Returned(None) => (w1, NoOrder)
    case Returned(Some(o)) =>
      if settings.None? then (w1, VcThrew)
      else (w1.(channels := VcUpdate(settings.value, w1.channels, o).0), Completed)
  }

  /** The world after the ticks `inputs`, one after another. */
  function Run(w: World, settings: Option<Settings>, emoji: map<string, string>, inputs: seq<TickInput>): World {
    if inputs == [] then w
    else TickSpec(Run(w, settings, emoji, inputs[..|inputs| - 1]), settings, emoji, inputs[|inputs| - 1]).0
  }

  /** Running one more tick is one more `TickSpec` step. */
  lemma RunStep(w: World, settings: Option<Settings>, emoji: map<string, string>, inputs: seq<TickInput>, i: nat)
    requires i < |inputs|
    ensures Run(w, settings, emoji, inputs[..i + 1])
         == TickSpec(Run(w, settings, emoji, inputs[..i]), settings, emoji, inputs[i]).0
  {
    assert inputs[..i + 1][..i] == inputs[..i];
  }

  /** The timer callback. */
  method Tick(client: Client, input: TickInput) returns (outcome: TickOutcome)
    modifies client`file, client`channels
    ensures (client.State(), outcome) == TickSpec(old(client.State()), client.settings, client.emojiMap, input)
  {
    var fetched := client.FetchMajorOrder(input.api, input.nowMs, input.freshId);
    if fetched.Threw? {
      return FetchThrew;
    }
    if fetched.order.None? {
      return NoOrder;
    }
    var threw, _ := client.UpdateVcChannelName(fetched.order.value);
    outcome := if threw then VcThrew else Completed;
  }

  /**
   * The timer firing once per element of `inputs`: every tick runs, whatever
   * the ticks before it threw.
   */
  method RunTicks(client: Client, inputs: seq<TickInput>) returns (outcomes: seq<TickOutcome>)
    modifies client`file, client`channels
    ensures |outcomes| == |inputs|
    ensures client.State() == Run(old(client.State()), client.settings, client.emojiMap, inputs)
    ensures forall i :: 0 <= i < |inputs| ==>
              outcomes[i] == TickSpec(Run(old(client.State()), client.settings, client.emojiMap, inputs[..i]),
                                      client.settings, client.emojiMap, inputs[i]).1
  {
    ghost var w0, settings, emoji := client.State(), client.settings, client.emojiMap;
    outcomes := [];
    var i := 0;
    while i < |inputs|
      invariant 0 <= i <= |inputs| && |outcomes| == i
      invariant client.settings == settings && client.emojiMap == emoji
      invariant client.State() == Run(w0, settings, emoji, inputs[..i])
      invariant forall j :: 0 <= j < i ==>
                  outcomes[j] == TickSpec(Run(w0, settings, emoji, inputs[..j]), settings, emoji, inputs[j]).1
    {
      var outcome := Tick(client, inputs[i]);
      RunStep(w0, settings, emoji, inputs, i);
      outcomes := outcomes + [outcome];
      i := i + 1;
    }
    assert inputs[..|inputs|] == inputs;
  }

  /** No channel disappears and no message is deleted. */
  predicate KeepsMessages(before: map<JsValue, Channel>, after: map<JsValue, Channel>) {
    && after.Keys == before.Keys
    && forall ch :: ch in before ==> before[ch].messages.Keys <= after[ch].messages.Keys
  }

  /**
   * However many ticks run, a message once posted stays (superseded ones are
   * orphaned, not deleted) and the file's writability is unchanged.
   */
  lemma {:induction false} RunKeepsMessages(w: World, settings: Option<Settings>, emoji: map<string, string>,
                                            inputs: seq<TickInput>)
    ensures Run(w, settings, emoji, inputs).fileWritable == w.fileWritable
    ensures KeepsMessages(w.channels, Run(w, settings, emoji, inputs).channels)
  {
    if inputs != [] {
      RunKeepsMessages(w, settings, emoji, inputs[..|inputs| - 1]);
    }
  }
}
