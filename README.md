# Major-order display bot: a Dafny model of its reconciliation core

This project models the core of a chat bot that polls a game-status API for the
active "major order" (a time-boxed campaign objective) and mirrors it into a chat
server: one embed message in a text channel, and the name of a voice channel.

What is modelled:

- **Reconciliation cycle** (`MajorOrderHandler`, handlers/majorOrderHandler.js).
  Each cycle validates the first order of the API reply and loads the persisted
  pointer (`settings.json`: `MAJOR_ORDER_ID`, `MAJOR_ORDER_EMBED_ID`,
  `MAJOR_ORDER_CHANNEL_ID`, ...). It then edits the stored message, posts a new
  one, or aborts, and writes the pointer back. The class `Client` holds the pointer
  file, the remote channel/message store and `client.settings`. Its methods are
  proved equal to the pure functions `PostNew`, `UpdateExisting`, `Cycle` and
  `VcUpdate`, and the lemmas about those functions state the branch-by-branch
  behaviour.
- **Voice-channel label** (`VcUpdate`, `Client.UpdateVcChannelName`). The label is
  `MO: <task> <faction>`, and the channel is renamed only when its name differs.
- **Progress bar** (`ProgressBar`, utils/progressBar.js). Lower clamps, round-half-up
  fill count, and the bar as a sequence of symbol cells. The missing upper clamp is
  an error result.
- **Embed builder** (`MajorOrderEmbed`, embedhandlers/majorOrderEmbed.js). The
  embed is a datatype: constant colour, title, description and footer, and five
  fields in a fixed order. A missing setting, task list, progress array, first
  task, values array or reward throws; a missing `values[0]`, `progress[0]` or
  `reward.amount`, or a missing symbol other than the two bar symbols, is shown
  as the text "undefined".
- **Scheduler** (`PeriodicUpdate`, handlers/periodicUpdateHandler.js). It computes
  the interval and runs each tick: fetch, then the voice-channel update when an
  order came back. Exceptions are caught per tick.

Behaviour of the code that the model makes explicit:

- A new order id makes `postNewMajorOrderEmbed` save `{id, newMessageId}`; its own
  doc comment (handlers/majorOrderHandler.js:112) says it stores the message id.
  The caller then overwrites the file with its earlier snapshot, and the comment
  at line 64 says it resets the embed id (`MAJOR_ORDER_EMBED_ID = null`). The next
  cycle therefore finds no embed id and posts a second message for the same order
  (`NewOrderPostsTwice`).
- The progress bar has no upper clamp. Progress well above the total gives a
  negative repeat count, which throws (`DoubleProgressThrows`). The embed then
  fails to build, and the cycle posts and edits nothing (`HelperFailureSwallowed`).
- An order whose first task has type code 0 is rejected as malformed
  (`TypeZeroRejected`).
- The task-type label is computed by the embed builder but appears in no field
  (`EmbedIgnoresTaskType`).
- `updateVcChannelName` and `startPeriodicUpdates` read `client.settings`, which
  index.js never assigns. With it unset, both throw; the model keeps that case
  (`settings: Option<Settings>`).

## Model

| member | source | states |
|---|---|---|
| `ProgressBar.ClampedProgress` | utils/progressBar.js:9-11 | an omitted progress is 0, and negative progress is raised to 0 |
| `ProgressBar.ClampedTotal` | utils/progressBar.js:9-12 | an omitted total is 1, and the total is raised to at least 1 |
| `ProgressBar.Filled` | utils/progressBar.js:14 | the fill count is the integer nearest to progress*barLength/total, halves rounding up |
| `ProgressBar.Repeat` | utils/progressBar.js:17-18 | `s.repeat(n)` has length n*\|s\| |
| `ProgressBar.RenderBar` | utils/progressBar.js:9-21 | rendering succeeds iff both bar symbols exist and filled <= barLength (no upper clamp); a missing complete symbol is the first error |
| `ProgressBar.RepeatIsCopies` | utils/progressBar.js:17-18 | `s.repeat(n)` is exactly n copies of s |
| `ProgressBar.RenderBarIsCells` | utils/progressBar.js:14-20 | a rendered bar is exactly barLength cells, cell k complete iff k < filled, and nothing else |
| `ProgressBar.FilledWithinBar` | utils/progressBar.js:14-15 | for 0 <= progress <= total, filled <= barLength, so filled + empty = barLength with both non-negative |
| `ProgressBar.FilledMonotone` | utils/progressBar.js:14 | for a fixed total and length, filled is non-decreasing in progress |
| `ProgressBar.NoProgressAllIncomplete` | utils/progressBar.js:9-20 | omitted, zero or negative progress renders barLength incomplete symbols |
| `ProgressBar.FullProgressAllComplete` | utils/progressBar.js:11-20 | progress equal to a total >= 1 renders barLength complete symbols |
| `ProgressBar.DoubleProgressThrows` | utils/progressBar.js:14-18 | twice the total on a non-empty bar gives a repeat count of -barLength, a thrown RangeError |
| `Orders.FirstTask` | embedhandlers/majorOrderEmbed.js:21 | `setting.tasks[0]` is a task iff the setting exists, tasks is an array, and its first entry is non-null; it is then that entry |
| `Orders.TaskLabel` | embedhandlers/majorOrderEmbed.js:30 | the task label is "Defense" iff the type code is 12, else "Unknown Task" |
| `Orders.Validate` | handlers/majorOrderHandler.js:18-37 | no data iff the reply is null or empty; the order is accepted iff setting, an array of tasks, a non-null first task with a non-zero type and values are present; a null first order or first task throws |
| `Orders.TypeZeroRejected` | handlers/majorOrderHandler.js:32 | a first task with type code 0 is rejected as malformed |
| `MajorOrderEmbed.FactionLabel` | embedhandlers/majorOrderEmbed.js:31 | the faction label is the Illuminate symbol + " Illuminate" iff values[1] is 4, else "Unknown Faction" |
| `MajorOrderEmbed.RewardSymbol` | embedhandlers/majorOrderEmbed.js:34-35 | the reward symbol is the table entry for the reward type when it is non-empty, else the DefaultReward entry |
| `MajorOrderEmbed.EndTimestamp` | embedhandlers/majorOrderEmbed.js:26-27 | the end time is floor(nowMs/1000) + expiresIn, in epoch seconds |
| `MajorOrderEmbed.BuildEmbed` | embedhandlers/majorOrderEmbed.js:19-77 | the build succeeds iff setting, progress, first task, values and reward are present and the bar renders; a built embed has the five fields in order with their names and inline flags, and a constant colour, description, footer and title |
| `MajorOrderEmbed.EmbedFieldValues` | embedhandlers/majorOrderEmbed.js:42-68 | the field values: objective with total and faction; progress/total and the bar; reward amount and symbol; end timestamp; `#id32` |
| `MajorOrderEmbed.EmbedIgnoresTaskType` | embedhandlers/majorOrderEmbed.js:30 | the embed does not depend on the task's type code |
| `MajorOrderEmbed.MessageIdIdentifiesOrder` | embedhandlers/majorOrderEmbed.js:65 | numeric order ids are equal iff their Message ID fields are equal |
| `MajorOrderEmbed.MissingPieceThrows` | embedhandlers/majorOrderEmbed.js:21-35 | a missing setting, progress, first task, values or reward makes the builder throw |
| `MajorOrderHandler.PostNew` | handlers/majorOrderHandler.js:117-140 | posting never deletes messages or changes channels; the pointer is unchanged or becomes the re-read pointer with the new message id and the order id |
| `MajorOrderHandler.UpdateExisting` | handlers/majorOrderHandler.js:85-109 | a stored message is edited only when its lookup succeeds; a lookup error is caught and read as a missing message, which reposts; either way no message is deleted and the file's writability is unchanged |
| `MajorOrderHandler.Cycle` | handlers/majorOrderHandler.js:14-76 | the cycle throws iff validation throws; it returns the order iff the order is valid and the pointer reads; every other outcome leaves pointer and remote store untouched |
| `MajorOrderHandler.VcTask` | handlers/majorOrderHandler.js:173-182 | the label task is the first task exactly when it exists and has at least two values |
| `MajorOrderHandler.VcUpdate` | handlers/majorOrderHandler.js:147-201 | `setName` is called iff the display channel id is set, the channel resolves, is a voice channel, the task has two values, and the name differs from the label; only that channel's name can change |
| `MajorOrderHandler.SameIdEditsInPlace` | handlers/majorOrderHandler.js:94-105 | same id, embed id stored, message found and its lookup succeeds: the store afterwards is the old store with only that message's embed replaced, no message is created, the pointer is not written |
| `MajorOrderHandler.SameIdReposts` | handlers/majorOrderHandler.js:94-134 | same id with a falsy embed id, a missing message or a failed lookup: the store afterwards is the old store plus exactly one new message, and the pointer gets its id with the other fields unchanged |
| `MajorOrderHandler.LookupFailureDuplicates` | handlers/majorOrderHandler.js:94-98 | a stored message whose lookup throws is treated as missing: a second message is posted beside it and the pointer moves to the new id, leaving the old one as a duplicate |
| `MajorOrderHandler.NewIdLastWriteWins` | handlers/majorOrderHandler.js:60-73 | new id: the final pointer is the pre-cycle snapshot with the new order id and a null embed id, whatever the post saved |
| `MajorOrderHandler.HelperFailureSwallowed` | handlers/majorOrderHandler.js:85-139 | unresolvable channel or a failing build: no remote change, no pointer change from that step, and the order is still returned |
| `MajorOrderHandler.EditFailureSwallowed` | handlers/majorOrderHandler.js:102-108 | same id, message found, edit throws: nothing changes and the order is returned, whether sending would work or not |
| `MajorOrderHandler.SendFailureSwallowed` | handlers/majorOrderHandler.js:126-139 | a posting branch whose send throws: no message is created, the post saves nothing, only the new-order write remains, and the order is returned |
| `MajorOrderHandler.EditCycleIdempotent` | handlers/majorOrderHandler.js:52-58 | repeating an edit cycle with the same order changes nothing further |
| `MajorOrderHandler.NewOrderPostsTwice` | handlers/majorOrderHandler.js:60-68 | a new order ends its first cycle with a null embed id and gets a second message in the next cycle |
| `MajorOrderHandler.VcUpdateIdempotent` | handlers/majorOrderHandler.js:191-197 | after a successful rename, a second call with the same order neither calls `setName` nor changes anything |
| `MajorOrderHandler.Client.PostNewMajorOrderEmbed` | handlers/majorOrderHandler.js:117-140 | the new pointer file and store are those `PostNew` gives |
| `MajorOrderHandler.Client.UpdateMajorOrderEmbed` | handlers/majorOrderHandler.js:85-109 | the new pointer file and store are those `UpdateExisting` gives |
| `MajorOrderHandler.Client.FetchMajorOrder` | handlers/majorOrderHandler.js:14-76 | the new state and the outcome are those `Cycle` gives |
| `MajorOrderHandler.Client.UpdateVcChannelName` | handlers/majorOrderHandler.js:147-201 | throws iff client.settings is unset; otherwise the channels and the rename call are as `VcUpdate` gives |
| `PeriodicUpdate.BaseInterval` | handlers/periodicUpdateHandler.js:10 | the interval is UPDATE_INTERVAL_SECONDS when it is non-zero, else 3600 |
| `PeriodicUpdate.SafeInterval` | handlers/periodicUpdateHandler.js:11 | the effective interval is max(base, 2), never below 2 seconds |
| `PeriodicUpdate.PeriodMs` | handlers/periodicUpdateHandler.js:28 | the period requested from the timer is 1000 times the effective interval, at least 2000 ms |
| `PeriodicUpdate.TimerDelayMs` | handlers/periodicUpdateHandler.js:28 | the timer waits the requested period when it is 1 to 2147483647 ms, and 1 ms otherwise, so the wait is always within that range |
| `PeriodicUpdate.LargeIntervalRunsAway` | handlers/periodicUpdateHandler.js:10-28 | an interval of 2147484 seconds or more gives a 1 ms timer despite the two-second floor |
| `PeriodicUpdate.SmallIntervalKeepsFloor` | handlers/periodicUpdateHandler.js:10-28 | an unset interval or one up to 2147483 seconds gives a timer delay of at least 2000 ms |
| `PeriodicUpdate.StartPeriodicUpdates` | handlers/periodicUpdateHandler.js:8-29 | it throws iff client.settings is unset; otherwise it starts the timer with that period |
| `PeriodicUpdate.TickSpec` | handlers/periodicUpdateHandler.js:15-27 | a tick reports a caught fetch exception iff the fetch threw and no order iff it returned null, changing nothing more; the VC update runs iff an order was returned and client.settings is set, and its result is the new store; it throws (caught) iff client.settings is unset; no message is ever deleted |
| `PeriodicUpdate.Tick` | handlers/periodicUpdateHandler.js:15-27 | the new state and outcome are those `TickSpec` gives |
| `PeriodicUpdate.RunTicks` | handlers/periodicUpdateHandler.js:15-28 | every tick runs, each from the state the earlier ones left, whatever they threw |
| `PeriodicUpdate.RunKeepsMessages` | handlers/periodicUpdateHandler.js:15-28 | across any number of ticks, posted messages are never deleted and no channel appears or disappears |

## Left out

- The HTTP client (utils/apiUtils.js) is not part of this model. Its request, client headers and unbounded 429 retry are replaced by the API reply given to each cycle as an input: null, or a list whose entries may be null.
- Logging (utils/logger.js) is not part of this model; every log call is a no-op.
- Command registration and dispatch, login, and the two slash commands (handlers/commandHandler.js, handlers/eventHandler.js, index.js, commands/) are wiring and are not part of this model.
- Numbers are integers. NaN, fractions and booleans in the API data or in settings.json are not modelled, and neither is non-numeric `UPDATE_INTERVAL_SECONDS`.
- `ProgressBar.Filled` computes `Math.round(progress / total * barLength)` exactly, as (2*p*L + t) / (2*t). Double-precision rounding of the quotient is not modelled.
- `ProgressBar.RenderBar`: the bar length is a natural number; callers always use the default of 10.
- `MajorOrderEmbed.BuildEmbed`: the percentage suffix of the Progress field (`toFixed(2)`, floating point) is not modelled; the modelled field value ends with the bar.
- `Date.now()` is a parameter (`nowMs`). The emoji table is a map, taken as the client's constant. JSON parsing and serialisation of settings.json are replaced by a record that is either readable or not, plus a writability flag. Only the five keys the bot uses are modelled.
- A non-array `setting.tasks` is taken to have no element 0. A truthy non-array API reply is not modelled.
- The chat platform is an abstract store: channels by id, each with a type code, a name and messages by id. The channel cache and the remote fetch are not told apart. A message lookup, send, edit or rename that throws is a per-channel flag; the lookup's error is caught and read as "no such message". The id the platform gives a sent message is an input of the cycle (`freshId`), and the lemmas require it to be unused.
- Channel ids are looked up in the store as given. The store is assumed to hold no channel under a null or undefined id; the platform would fail such a lookup.
- PeriodicUpdate.PeriodMs: is the delay the code asks the timer for, not the delay it gets. The runtime's timer replaces any delay above 2147483647 ms by 1 ms; that cap is not in the repository's source and is modelled separately as `PeriodicUpdate.TimerDelayMs`.
- Concurrency: overlapping timer ticks racing on settings.json are not modelled; each tick runs atomically.
