/**
 * The major-order reconciliation cycle: validate the first API order, load
 * the persisted pointer (settings.json), then edit the existing embed
 * message, post a new one, or abort, and write the pointer back; and the
 * voice-channel label updater.
 *
 * The pointer file and the chat platform are state held by `Client`; each
 * method is specified by a function over `World` (file + remote store), and
 * the properties of the cycle are lemmas about those functions.
 */
module MajorOrderHandler {
  import opened Wrappers
  import opened JsValues
  import opened Orders
  import opened MajorOrderEmbed

  /** settings.json: the persisted pointer and the bot's configuration. */
  datatype Settings = Settings(
    majorOrderId: JsValue,         // MAJOR_ORDER_ID
    embedId: JsValue,              // MAJOR_ORDER_EMBED_ID
    channelId: JsValue,            // MAJOR_ORDER_CHANNEL_ID
    displayChannelId: JsValue,     // MO_DISPLAY_CHANNEL_ID
    intervalSeconds: Option<int>)  // UPDATE_INTERVAL_SECONDS

  /**
   * A chat channel: its type code, its name, its messages by id, and whether
   * looking a message up, sending, editing and renaming succeed (each throws
   * when not; the lookup's error is caught and read as "no such message").
   */
  datatype Channel = Channel(
    kind: int,
    name: string,
    messages: map<JsValue, Embed>,
    canFetch: bool,
    canSend: bool,
    canEdit: bool,
    canRename: bool)

  /** Channel type code of a guild voice channel. */
  const VoiceChannelKind: int := 2

  /**
   * The pointer file (None when reading or parsing it fails), whether writing
   * it succeeds, and the channels the bot can resolve by id.
   */
  datatype World = World(file: Option<Settings>, fileWritable: bool, channels: map<JsValue, Channel>)

  /** What `fetchMajorOrder` settles to: a rejection, or the value it returns. */
  datatype FetchOutcome = Threw | Returned(order: Option<Order>)

  /** Messages are never deleted and channels never appear or disappear. */
  predicate Grows(before: map<JsValue, Channel>, after: map<JsValue, Channel>) {
    && after.Keys == before.Keys
    && forall ch :: ch in before ==>
         && before[ch].messages.Keys <= after[ch].messages.Keys
         && after[ch].(messages := before[ch].messages) == before[ch]
  }

  /** Post `e` as message `id` in channel `ch`. */
  function Send(channels: map<JsValue, Channel>, ch: JsValue, id: JsValue, e: Embed): (r: map<JsValue, Channel>)
    requires ch in channels
    ensures Grows(channels, r)
    ensures id in r[ch].messages && r[ch].messages[id] == e
  {
    channels[ch := channels[ch].(messages := channels[ch].messages[id := e])]
  }

  /**
   * `postNewMajorOrderEmbed`: resolve the channel, build the embed, send it
   * as message `freshId`, then re-read the pointer and save it with the new
   * message id and the order id. Every failure is swallowed and ends the step.
   */
  function PostNew(w: World, emoji: map<string, string>, o: Order, channelId: JsValue, nowMs: int, freshId: string)
    : (r: World)
    ensures r.fileWritable == w.fileWritable
    ensures Grows(w.channels, r.channels)
    ensures r.file == w.file || (r.file.Some? && w.file.Some? &&
              r.file.value == w.file.value.(embedId := Str(freshId), majorOrderId := o.id32))
  {
    if channelId !in w.channels then w
    else
      var c := w.channels[channelId];
      match BuildEmbed(o, emoji, nowMs)
      case Failure(_) => w
      case Success(e) =>
        if !c.canSend then w
        else
          var posted := w.(channels := Send(w.channels, channelId, Str(freshId), e));
          if w.file.None? || !w.fileWritable then posted
          else posted.(file := Some(w.file.value.(embedId := Str(freshId), majorOrderId := o.id32)))
  }

  /**
   * `updateMajorOrderEmbed`: resolve the channel, look the message up, and
   * replace its embed; a message that is not found is reposted instead.
   */
  function UpdateExisting(w: World, emoji: map<string, string>, o: Order, channelId: JsValue, embedId: JsValue,
                          nowMs: int, freshId: string): (r: World)
    ensures r.fileWritable == w.fileWritable
    ensures Grows(w.channels, r.channels)
  {
    if channelId !in w.channels then w
    else
      var c := w.channels[channelId];
      if embedId !in c.messages || !c.canFetch then PostNew(w, emoji, o, channelId, nowMs, freshId)
      else match BuildEmbed(o, emoji, nowMs)
        case Failure(_) => w
        case Success(e) =>
          if !c.canEdit then w
          else w.(channels := Send(w.channels, channelId, embedId, e))
  }

  /**
   * One `fetchMajorOrder` cycle on the API result `api`, at time nowMs, with
   * `freshId` the id the platform gives a message sent in this cycle.
   */
  function Cycle(w: World, emoji: map<string, string>, api: ApiResult, nowMs: int, freshId: string)
    : (r: (World, FetchOutcome))
    ensures r.1 == Threw <==> Validate(api) == Throws
    ensures r.1.Returned? && r.1.order.Some? <==> Validate(api).Valid? && w.file.Some?
    ensures r.1.Returned? && r.1.order.Some? ==> r.1.order.value == Validate(api).order
    ensures !(r.1.Returned? && r.1.order.Some?) ==> r.0 == w
    ensures r.0.fileWritable == w.fileWritable
    ensures Grows(w.channels, r.0.channels)
  {
    match Validate(api)
    case NoData => (w, Returned(None))
    case Malformed => (w, Returned(None))
    case Throws => (w, Threw)
    case Valid(o) =>
      if w.file.None? then (w, Returned(None))
      else
        var s := w.file.value;
        if s.majorOrderId == o.id32 then
          if !Truthy(s.embedId) then (PostNew(w, emoji, o, s.channelId, nowMs, freshId), Returned(Some(o)))
          else (UpdateExisting(w, emoji, o, s.channelId, s.embedId, nowMs, freshId), Returned(Some(o)))
        else
          var posted := PostNew(w, emoji, o, s.channelId, nowMs, freshId);
          var stale := s.(majorOrderId := o.id32, embedId := Null);
          (if posted.fileWritable then posted.(file := Some(stale)) else posted, Returned(Some(o)))
  }

  /** The voice-channel name for a task with at least two values. */
  function VcLabel(t: Task): string
    requires t.values.Some? && |t.values.value| >= 2
  {
    "MO: " + TaskLabel(t) + " "
      + (if t.values.value[1] == IlluminateCode then "Illuminate" else "Unknown Faction")
  }

  /**
   * The task `updateVcChannelName` names the channel after, when the order's
   * checks pass: tasks an array, tasks[0] non-null with at least two values.
   */
  function VcTask(o: Order): (t: Option<Task>)
    ensures t.Some? <==>
              && FirstTask(o).Some? && FirstTask(o).value.values.Some?
              && |FirstTask(o).value.values.value| >= 2
    ensures t.Some? ==> t == FirstTask(o)
  {
    match FirstTask(o)
    case None => None
    case Some(t) => if t.values.Some? && |t.values.value| >= 2 then Some(t) else None
  }

  /**
   * `updateVcChannelName` once client.settings is set: the new channels, and
   * whether `setName` was called.
   */
  function VcUpdate(s: Settings, channels: map<JsValue, Channel>, o: Order): (r: (map<JsValue, Channel>, bool))
    ensures r.0.Keys == channels.Keys
    ensures forall ch :: ch in channels && ch != s.displayChannelId ==> r.0[ch] == channels[ch]
    ensures forall ch :: ch in channels ==> r.0[ch].messages == channels[ch].messages
    ensures r.1 <==>
              && Truthy(s.displayChannelId) && s.displayChannelId in channels
              && channels[s.displayChannelId].kind == VoiceChannelKind
              && VcTask(o).Some?
              && channels[s.displayChannelId].name != VcLabel(VcTask(o).value)
    ensures r.0 != channels ==>
              && r.1 && channels[s.displayChannelId].canRename
              && r.0[s.displayChannelId] == channels[s.displayChannelId].(name := VcLabel(VcTask(o).value))
  {
    var id := s.displayChannelId;
    if !Truthy(id) || id !in channels then (channels, false)
    else
      var c := channels[id];
      if c.kind != VoiceChannelKind then (channels, false)
      else match VcTask(o)
        case None => (channels, false)
        case Some(t) =>
          var newName := VcLabel(t);
          if c.name == newName then (channels, false)
          else if !c.canRename then (channels, true)
          else (channels[id := c.(name := newName)], true)
  }

  /** The first API order `o` passed the checks and the pointer read as `s`. */
  predicate Loaded(w: World, api: ApiResult, o: Order, s: Settings) {
    Validate(api) == Valid(o) && w.file == Some(s)
  }

  /**
   * Same order, embed id stored, message found: its embed is replaced in
   * place, no message is created anywhere and the pointer is not written.
   */
  lemma SameIdEditsInPlace(w: World, emoji: map<string, string>, api: ApiResult, nowMs: int, freshId: string,
                           o: Order, s: Settings)
    requires Loaded(w, api, o, s) && s.majorOrderId == o.id32 && Truthy(s.embedId)
    requires s.channelId in w.channels && s.embedId in w.channels[s.channelId].messages
    requires w.channels[s.channelId].canFetch
    requires w.channels[s.channelId].canEdit && BuildEmbed(o, emoji, nowMs).Success?
    ensures var r := Cycle(w, emoji, api, nowMs, freshId);
      && r.1 == Returned(Some(o))
      && r.0.file == w.file
      && r.0.channels == Send(w.channels, s.channelId, s.embedId, BuildEmbed(o, emoji, nowMs).value)
      && (forall ch :: ch in w.channels ==> r.0.channels[ch].messages.Keys == w.channels[ch].messages.Keys)
  {
    var e := BuildEmbed(o, emoji, nowMs).value;
    assert UpdateExisting(w, emoji, o, s.channelId, s.embedId, nowMs, freshId)
        == w.(channels := Send(w.channels, s.channelId, s.embedId, e));
  }

  /**
   * Same order but no embed id stored, or the stored message is gone or
   * its lookup failed:
   * exactly one new message is posted and the pointer is saved with its id,
   * the order id and every other field unchanged.
   */
  lemma SameIdReposts(w: World, emoji: map<string, string>, api: ApiResult, nowMs: int, freshId: string,
                      o: Order, s: Settings)
    requires Loaded(w, api, o, s) && s.majorOrderId == o.id32
    requires s.channelId in w.channels
    requires || !Truthy(s.embedId)
             || s.embedId !in w.channels[s.channelId].messages
             || !w.channels[s.channelId].canFetch
    requires w.channels[s.channelId].canSend && BuildEmbed(o, emoji, nowMs).Success? && w.fileWritable
    requires Str(freshId) !in w.channels[s.channelId].messages
    ensures var r := Cycle(w, emoji, api, nowMs, freshId);
      && r.1 == Returned(Some(o))
      && r.0.file == Some(s.(embedId := Str(freshId)))
      && r.0.channels == Send(w.channels, s.channelId, Str(freshId), BuildEmbed(o, emoji, nowMs).value)
      && r.0.channels[s.channelId].messages.Keys == w.channels[s.channelId].messages.Keys + {Str(freshId)}
  {
    var e := BuildEmbed(o, emoji, nowMs).value;
    var posted := PostNew(w, emoji, o, s.channelId, nowMs, freshId);
    assert posted == w.(channels := Send(w.channels, s.channelId, Str(freshId), e),
                        file := Some(s.(embedId := Str(freshId), majorOrderId := o.id32)));
    if Truthy(s.embedId) {
      assert UpdateExisting(w, emoji, o, s.channelId, s.embedId, nowMs, freshId) == posted;
    }
  }

  /**
   * A stored message whose lookup fails is taken for a missing one: a second
   * message is posted beside it and the pointer moves to the new one, so the
   * old message stays behind as a duplicate.
   */
  lemma LookupFailureDuplicates(w: World, emoji: map<string, string>, api: ApiResult, nowMs: int, freshId: string,
                                o: Order, s: Settings)
    requires Loaded(w, api, o, s) && s.majorOrderId == o.id32 && Truthy(s.embedId)
    requires s.channelId in w.channels && s.embedId in w.channels[s.channelId].messages
    requires !w.channels[s.channelId].canFetch
    requires w.channels[s.channelId].canSend && BuildEmbed(o, emoji, nowMs).Success? && w.fileWritable
    requires Str(freshId) !in w.channels[s.channelId].messages
    ensures var r := Cycle(w, emoji, api, nowMs, freshId);
      && r.0.file == Some(s.(embedId := Str(freshId)))
      && s.embedId != Str(freshId)
      && s.embedId in r.0.channels[s.channelId].messages
      && Str(freshId) in r.0.channels[s.channelId].messages
  {
    SameIdReposts(w, emoji, api, nowMs, freshId, o, s);
  }

  /**
   * A different order id (null included): whatever the post did, the last
   * write stores the pre-cycle snapshot with the new order id and a null
   * embed id; the message is posted when the channel, embed and send allow.
   */
  lemma NewIdLastWriteWins(w: World, emoji: map<string, string>, api: ApiResult, nowMs: int, freshId: string,
                           o: Order, s: Settings)
    requires Loaded(w, api, o, s) && s.majorOrderId != o.id32 && w.fileWritable
    ensures var r := Cycle(w, emoji, api, nowMs, freshId);
      && r.1 == Returned(Some(o))
      && r.0.file == Some(s.(majorOrderId := o.id32, embedId := Null))
      && r.0.channels ==
           if s.channelId in w.channels && w.channels[s.channelId].canSend && BuildEmbed(o, emoji, nowMs).Success?
           then Send(w.channels, s.channelId, Str(freshId), BuildEmbed(o, emoji, nowMs).value)
           else w.channels
  {
  }

  /**
   * An unresolvable channel or an embed that fails to build: the step
   * changes nothing remote, the pointer changes only by the new-order write,
   * and the order is returned.
   */
  lemma HelperFailureSwallowed(w: World, emoji: map<string, string>, api: ApiResult, nowMs: int, freshId: string,
                               o: Order, s: Settings)
    requires Loaded(w, api, o, s)
    requires s.channelId !in w.channels || BuildEmbed(o, emoji, nowMs).Failure?
    ensures var r := Cycle(w, emoji, api, nowMs, freshId);
      && r.1 == Returned(Some(o))
      && r.0.channels == w.channels
      && r.0.file == if s.majorOrderId == o.id32 || !w.fileWritable then w.file
                     else Some(s.(majorOrderId := o.id32, embedId := Null))
  {
  }

  /**
   * Same id, message found, but the edit throws: the error is swallowed,
   * nothing changes (whether sending would work or not), and the order is
   * returned.
   */
  lemma EditFailureSwallowed(w: World, emoji: map<string, string>, api: ApiResult, nowMs: int, freshId: string,
                             o: Order, s: Settings)
    requires Loaded(w, api, o, s) && s.majorOrderId == o.id32 && Truthy(s.embedId)
    requires s.channelId in w.channels && s.embedId in w.channels[s.channelId].messages
    requires w.channels[s.channelId].canFetch && !w.channels[s.channelId].canEdit
    ensures Cycle(w, emoji, api, nowMs, freshId) == (w, Returned(Some(o)))
  {
  }

  /**
   * A posting branch (same id without a usable message, or a new id) whose
   * send throws: no message is created and the post saves nothing; only the
   * new-order write of the caller still happens.
   */
  lemma SendFailureSwallowed(w: World, emoji: map<string, string>, api: ApiResult, nowMs: int, freshId: string,
                             o: Order, s: Settings)
    requires Loaded(w, api, o, s) && s.channelId in w.channels
    requires || s.majorOrderId != o.id32
             || !Truthy(s.embedId)
             || s.embedId !in w.channels[s.channelId].messages
             || !w.channels[s.channelId].canFetch
    requires !w.channels[s.channelId].canSend
    ensures var r := Cycle(w, emoji, api, nowMs, freshId);
      && r.1 == Returned(Some(o))
      && r.0.channels == w.channels
      && r.0.file == if s.majorOrderId == o.id32 || !w.fileWritable then w.file
                     else Some(s.(majorOrderId := o.id32, embedId := Null))
  {
  }

  /**
   * Running the edit cycle again with the same order and time changes
   * nothing more: no write, no new message, the same content.
   */
  lemma EditCycleIdempotent(w: World, emoji: map<string, string>, api: ApiResult, nowMs: int,
                            freshId1: string, freshId2: string, o: Order, s: Settings)
    requires Loaded(w, api, o, s) && s.majorOrderId == o.id32 && Truthy(s.embedId)
    requires s.channelId in w.channels && s.embedId in w.channels[s.channelId].messages
    requires w.channels[s.channelId].canFetch
    requires w.channels[s.channelId].canEdit && BuildEmbed(o, emoji, nowMs).Success?
    ensures var w1 := Cycle(w, emoji, api, nowMs, freshId1).0;
      Cycle(w1, emoji, api, nowMs, freshId2) == (w1, Returned(Some(o)))
  {
    var e := BuildEmbed(o, emoji, nowMs).value;
    var w1 := Cycle(w, emoji, api, nowMs, freshId1).0;
    SameIdEditsInPlace(w, emoji, api, nowMs, freshId1, o, s);
    assert w1 == w.(channels := Send(w.channels, s.channelId, s.embedId, e));
    SameIdEditsInPlace(w1, emoji, api, nowMs, freshId2, o, s);
    var c1 := w1.channels[s.channelId];
    assert c1.messages[s.embedId] == e;
    assert c1.messages[s.embedId := e] == c1.messages;
    assert c1.(messages := c1.messages[s.embedId := e]) == c1;
    assert Send(w1.channels, s.channelId, s.embedId, e) == w1.channels;
  }

  /**
   * A new order is posted twice: the first cycle posts and then stores a
   * null embed id, so the second cycle, finding no embed id, posts again
   * and only then stores a message id.
   */
  lemma NewOrderPostsTwice(w: World, emoji: map<string, string>, api: ApiResult,
                           nowMs1: int, freshId1: string, nowMs2: int, freshId2: string, o: Order, s: Settings)
    requires Loaded(w, api, o, s) && s.majorOrderId != o.id32 && w.fileWritable
    requires s.channelId in w.channels && w.channels[s.channelId].canSend
    requires BuildEmbed(o, emoji, nowMs1).Success?
    requires freshId1 != freshId2
    requires Str(freshId1) !in w.channels[s.channelId].messages
    requires Str(freshId2) !in w.channels[s.channelId].messages
    ensures var w1 := Cycle(w, emoji, api, nowMs1, freshId1).0;
            var w2 := Cycle(w1, emoji, api, nowMs2, freshId2).0;
      && w1.file == Some(s.(majorOrderId := o.id32, embedId := Null))
      && w2.file == Some(s.(majorOrderId := o.id32, embedId := Str(freshId2)))
      && w2.channels[s.channelId].messages.Keys
           == w.channels[s.channelId].messages.Keys + {Str(freshId1), Str(freshId2)}
  {
    var w1 := Cycle(w, emoji, api, nowMs1, freshId1).0;
    NewIdLastWriteWins(w, emoji, api, nowMs1, freshId1, o, s);
    var s1 := s.(majorOrderId := o.id32, embedId := Null);
    assert Loaded(w1, api, o, s1);
    assert BuildEmbed(o, emoji, nowMs2).Success?;
    SameIdReposts(w1, emoji, api, nowMs2, freshId2, o, s1);
    assert s1.(embedId := Str(freshId2)) == s.(majorOrderId := o.id32, embedId := Str(freshId2));
  }

  /**
   * Once a rename has gone through, calling the updater again with the same
   * order calls `setName` no more and changes nothing.
   */
  lemma VcUpdateIdempotent(s: Settings, channels: map<JsValue, Channel>, o: Order)
    requires VcUpdate(s, channels, o).1 ==> channels[s.displayChannelId].canRename
    ensures var after := VcUpdate(s, channels, o).0;
      VcUpdate(s, after, o) == (after, false)
  {
  }

  /** The bot client: the pointer file, the remote store and `client.settings`. */
  class Client {
    /** settings.json as read: None when reading or parsing fails. */
    var file: Option<Settings>
    var fileWritable: bool
    /** The channels the bot resolves by id, with their messages. */
    var channels: map<JsValue, Channel>
    /** `client.settings`: None while it was never assigned. */
    var settings: Option<Settings>
    /** emojiMap.json, loaded once. */
    const emojiMap: map<string, string>

    constructor (file: Option<Settings>, fileWritable: bool, channels: map<JsValue, Channel>,
                 settings: Option<Settings>, emojiMap: map<string, string>)
      ensures State() == World(file, fileWritable, channels)
      ensures this.settings == settings && this.emojiMap == emojiMap
    {
      this.file := file;
      this.fileWritable := fileWritable;
      this.channels := channels;
      this.settings := settings;
      this.emojiMap := emojiMap;
    }

    function State(): World
      reads this
    {
      World(file, fileWritable, channels)
    }

    method PostNewMajorOrderEmbed(o: Order, channelId: JsValue, nowMs: int, freshId: string)
      modifies this`file, this`channels
      ensures State() == PostNew(old(State()), emojiMap, o, channelId, nowMs, freshId)
    {
      if channelId !in channels {
        return;
      }
      var channel := channels[channelId];
      var built := BuildEmbed(o, emojiMap, nowMs);
      if built.Failure? || !channel.canSend {
        return;
      }
      channels := Send(channels, channelId, Str(freshId), built.value);
      if file.None? {
        return;
      }
      var reread := file.value;
      reread := reread.(embedId := Str(freshId));
      reread := reread.(majorOrderId := o.id32);
      if fileWritable {
        file := Some(reread);
      }
    }

    method UpdateMajorOrderEmbed(o: Order, channelId: JsValue, embedId: JsValue, nowMs: int, freshId: string)
      modifies this`file, this`channels
      ensures State() == UpdateExisting(old(State()), emojiMap, o, channelId, embedId, nowMs, freshId)
    {
      if channelId !in channels {
        return;
      }
      var channel := channels[channelId];
      if embedId !in channel.messages || !channel.canFetch {
        PostNewMajorOrderEmbed(o, channelId, nowMs, freshId);
        return;
      }
      var built := BuildEmbed(o, emojiMap, nowMs);
      if built.Failure? || !channel.canEdit {
        return;
      }
      channels := Send(channels, channelId, embedId, built.value);
    }

    method FetchMajorOrder(api: ApiResult, nowMs: int, freshId: string) returns (outcome: FetchOutcome)
      modifies this`file, this`channels
      ensures (State(), outcome) == Cycle(old(State()), emojiMap, api, nowMs, freshId)
    {
      var checked := Validate(api);
      if checked == Throws {
        return Threw;
      }
      if !checked.Valid? || file.None? {
        return Returned(None);
      }
      var order := checked.order;
      var snapshot := file.value;
      if snapshot.majorOrderId == order.id32 {
        if !Truthy(snapshot.embedId) {
          PostNewMajorOrderEmbed(order, snapshot.channelId, nowMs, freshId);
        } else {
          UpdateMajorOrderEmbed(order, snapshot.channelId, snapshot.embedId, nowMs, freshId);
        }
      } else {
        PostNewMajorOrderEmbed(order, snapshot.channelId, nowMs, freshId);
        snapshot := snapshot.(majorOrderId := order.id32);
        snapshot := snapshot.(embedId := Null);
        if fileWritable {
          file := Some(snapshot);
        }
      }
      return Returned(Some(order));
    }

    /**
     * `updateVcChannelName`: throws (outside its try block) when
     * client.settings was never assigned; otherwise renames as VcUpdate says.
     */
    method UpdateVcChannelName(o: Order) returns (threw: bool, renameCalled: bool)
      modifies this`channels
      ensures threw <==> settings.None?
      ensures threw ==> channels == old(channels) && !renameCalled
      ensures !threw ==> (channels, renameCalled) == VcUpdate(settings.value, old(channels), o)
    {
      if settings.None? {
        return true, false;
      }
      threw := false;
      var id := settings.value.displayChannelId;
      if !Truthy(id) || id !in channels {
        return false, false;
      }
      var channel := channels[id];
      if channel.kind != VoiceChannelKind {
        return false, false;
      }
      var task := VcTask(o);
      if task.None? {
        return false, false;
      }
      var newName := VcLabel(task.value);
      renameCalled := false;
      if channel.name != newName {
        renameCalled := true;
        if channel.canRename {
          channels := channels[id := channel.(name := newName)];
        }
      }
    }
  }
}
