/** The binding's topic Thing handler: it follows a MAM stream from its root, hands each
    fetched batch to the Thing's channels, and pays for price-gated streams on its payment
    channels. The fetch and the transformation services are oracles given to each call. */
module IotaThingHandler {
  import opened Common
  import opened MamJson
  import IS = IotaSettings
  import IU = IotaUtils
  import BCC = BindingChannelConfig
  import CR = ChannelRouter
  import PS = PaymentSender
  import opened ChannelSetup

  // ---------------------------------------------------------------- stream cursor

  /** One `fetchItemState` call: how it ended, whether it found data, the new root and batch,
      the roots it fetched, the transport's cache afterwards, and whether the root was empty
      (the Thing then goes offline with "Could not fetch data"). */
  datatype CursorStep = CursorStep(outcome: Outcome, success: bool, root: Option<string>, data: seq<Record>,
                                   queried: seq<string>, cache: IU.Fetched, noRoot: bool)

  /** A response turned into the cursor's next state: NEXTROOT becomes the root, then the first
      entry's array becomes the batch. */
  function Advance(resp: JsonObject, root: Option<string>, data: seq<Record>, queried: seq<string>, cache: IU.Fetched): (r: CursorStep)
    ensures r.queried == queried && r.cache == cache && !r.noRoot
    ensures r.success ==> r.outcome == Done && !IsEmptyObject(resp)
    ensures r.outcome == Done && !r.success ==> r.root == root && r.data == data
  {
    if IsEmptyObject(resp) then CursorStep(Done, false, root, data, queried, cache, false)
    else match Get(resp, NextRootKey)
      case None => CursorStep(Threw(NullPointer), false, root, data, queried, cache, false)
      case Some(v) =>
        if !v.JText? then CursorStep(Threw(IllegalState), false, root, data, queried, cache, false)
        else if !resp.entries[0].value.JBatch? then CursorStep(Threw(IllegalState), false, Some(v.text), data, queried, cache, false)
        else CursorStep(Done, true, Some(v.text), resp.entries[0].value.records, queried, cache, false)
  }

  /** `fetchItemState` as a function of the cursor, the transport cache and the two possible
      fetch outputs: the current root is fetched; only when that yields nothing parsable (the
      cache is still "") is the look-ahead root fetched, once. */
  function Cursor(root: Option<string>, data: seq<Record>, refresh: int, mode: Option<string>, key: Option<string>,
                  url: string, cache: IU.Fetched, out1: IU.FetchOutput, nextRoot: string, out2: IU.FetchOutput): CursorStep
  {
    if root.None? then CursorStep(Threw(NullPointer), false, root, data, [], cache, false)
    else if |root.value| == 0 then CursorStep(Done, false, root, data, [], cache, true)
    else
      var (o1, c1) := IU.FetchAnswer(cache, IU.HasNull(IU.FetchCommand(refresh, url, root, mode, key)), out1);
      if o1.Threw? then CursorStep(o1, false, root, data, [root.value], c1, false)
      else if c1.Json? then Advance(c1.obj, root, data, [root.value], c1)
      else
        var (o2, c2) := IU.FetchAnswer(c1, IU.HasNull(IU.FetchCommand(refresh, url, Some(nextRoot), mode, key)), out2);
        if o2.Threw? then CursorStep(o2, false, root, data, [root.value, nextRoot], c2, false)
        else if c2.Json? then Advance(c2.obj, root, data, [root.value, nextRoot], c2)
        else CursorStep(Done, false, root, data, [root.value, nextRoot], c2, false)
  }

  /** An empty root fetches nothing, reports that it could not fetch data, and keeps the cursor. */
  lemma EmptyRootFetchesNothing(data: seq<Record>, refresh: int, mode: Option<string>, key: Option<string>,
                                url: string, cache: IU.Fetched, out1: IU.FetchOutput, nextRoot: string, out2: IU.FetchOutput)
    ensures var r := Cursor(Some(""), data, refresh, mode, key, url, cache, out1, nextRoot, out2);
      r.noRoot && !r.success && r.outcome == Done && r.root == Some("") && r.data == data && r.queried == [] && r.cache == cache
  {
  }

  /** At most one look-ahead: the current root is fetched first, and the look-ahead root only
      when the current one left the transport's answer at "". */
  lemma AtMostOneLookAhead(root: Option<string>, data: seq<Record>, refresh: int, mode: Option<string>, key: Option<string>,
                           url: string, cache: IU.Fetched, out1: IU.FetchOutput, nextRoot: string, out2: IU.FetchOutput)
    ensures var r := Cursor(root, data, refresh, mode, key, url, cache, out1, nextRoot, out2);
      && |r.queried| <= 2
      && (|r.queried| > 0 ==> root.Some? && r.queried[0] == root.value)
      && (|r.queried| == 2 ==>
            r.queried[1] == nextRoot
            && IU.FetchAnswer(cache, IU.HasNull(IU.FetchCommand(refresh, url, root, mode, key)), out1) == (Done, IU.Blank))
  {
  }

  /** A successful fetch moves the root to the response's NEXTROOT and replaces the batch with
      the response's first array; a fetch that ends normally without success changes neither. */
  lemma CursorMovesOnlyOnData(root: Option<string>, data: seq<Record>, refresh: int, mode: Option<string>, key: Option<string>,
                              url: string, cache: IU.Fetched, out1: IU.FetchOutput, nextRoot: string, out2: IU.FetchOutput)
    ensures var r := Cursor(root, data, refresh, mode, key, url, cache, out1, nextRoot, out2);
      && (r.success ==>
            r.outcome == Done && r.cache.Json? && r.root.Some?
            && Get(r.cache.obj, NextRootKey) == Some(JText(r.root.value))
            && r.cache.obj.entries[0].value == JBatch(r.data))
      && (r.outcome == Done && !r.success ==> r.root == root && r.data == data)
  {
    if root.Some? && |root.value| > 0 {
      var (o1, c1) := IU.FetchAnswer(cache, IU.HasNull(IU.FetchCommand(refresh, url, root, mode, key)), out1);
      if !o1.Threw? && c1.Json? {
        AdvanceReads(c1.obj, root, data, [root.value], c1);
      } else if !o1.Threw? {
        var (o2, c2) := IU.FetchAnswer(c1, IU.HasNull(IU.FetchCommand(refresh, url, Some(nextRoot), mode, key)), out2);
        if !o2.Threw? && c2.Json? {
          AdvanceReads(c2.obj, root, data, [root.value, nextRoot], c2);
        }
      }
    }
  }

  /** A response that moves the cursor names the new root under NEXTROOT and holds the new
      batch as its first entry. */
  lemma AdvanceReads(resp: JsonObject, root: Option<string>, data: seq<Record>, queried: seq<string>, cache: IU.Fetched)
    requires cache == IU.Json(resp)
    ensures var r := Advance(resp, root, data, queried, cache);
      r.success ==> r.root.Some? && Get(resp, NextRootKey) == Some(JText(r.root.value)) && resp.entries[0].value == JBatch(r.data)
  {
  }

  /** While the stream has not moved on, every fetch answers with the cached response, so the
      same batch is delivered again on each tick. */
  lemma CachedBatchRedelivered(root: string, data: seq<Record>, refresh: int, mode: string, key: Option<string>,
                               url: string, resp: JsonObject, next: string, batch: seq<Record>, nextRoot: string, out2: IU.FetchOutput)
    requires |root| > 0 && |resp.entries| > 0 && resp.entries[0].value == JBatch(batch)
    requires Get(resp, NextRootKey) == Some(JText(next))
    ensures var r := Cursor(Some(root), data, refresh, Some(mode), key, url, IU.Json(resp), IU.NoOutput, nextRoot, out2);
      r.success && r.root == Some(next) && r.data == batch && r.cache == IU.Json(resp)
  {
  }

  /** The rest of a data tick once the cursor has stepped: a batch found is routed to the
      channels; an exception from either step sends the Thing offline with its message, and an
      empty root with "Could not fetch data". */
  function AfterFetch(r: CursorStep, route: CR.RouteResult, status: ThingStatus): (t: (Outcome, seq<CR.Delivery>, seq<Record>, ThingStatus))
    ensures r.success ==> t.0 == route.outcome && t.1 == route.deliveries && t.2 == route.remaining
    ensures !r.success ==> t.0 == r.outcome && t.1 == [] && t.2 == r.data
    ensures t.0.Threw? ==> t.3 == Offline(CommunicationError, ExceptionMessage)
    ensures t.0.Done? ==> t.3 == if r.noRoot then Offline(CommunicationError, Message(CouldNotFetchData)) else status
  {
    var (outcome, sent, data) := if r.success then (route.outcome, route.deliveries, route.remaining) else (r.outcome, [], r.data);
    (outcome, sent, data, if outcome.Threw? then Offline(CommunicationError, ExceptionMessage)
                          else if r.noRoot then Offline(CommunicationError, Message(CouldNotFetchData))
                          else status)
  }

  // ---------------------------------------------------------------- the handler

  /** The Thing configuration written once a payment is confirmed: the stream's next root, a
      60-second refresh, the handler's mode, and the subscriber's own key. */
  datatype TopicConfiguration = TopicConfiguration(root: Option<string>, refresh: int, mode: Option<string>, key: Option<string>)

  const PatternWithoutColon: string := "The transformation pattern must consist of the type and the pattern separated by a colon"

  /** The walk so far handed over `sent`, and `rest` is the walk from here on. */
  predicate Resumes(full: CR.RouteResult, sent: seq<CR.Delivery>, rest: CR.RouteResult) {
    full.outcome == rest.outcome && full.deliveries == sent + rest.deliveries && full.remaining == rest.remaining
  }

  /** One more channel of the walk: a stopping channel ends it there, any other resumes it
      after that channel with what it was handed. */
  lemma ResumesStep(full: CR.RouteResult, sent: seq<CR.Delivery>, ids: seq<ChannelUID>, k: nat,
                    configs: map<ChannelUID, BCC.ChannelConfig>, data: seq<Record>, transform: CR.Transformer)
    requires k < |ids| && Resumes(full, sent, CR.Route(ids[k..], configs, data, transform))
    ensures var step := CR.StepChannel(ids[k], configs, data, transform);
      && (step.Stop? ==> full.outcome == step.outcome && full.deliveries == sent && full.remaining == data)
      && (step.Continue? ==> Resumes(full, sent + CR.Handed(step.delivery), CR.Route(ids[k + 1..], configs, step.next, transform)))
  {
    assert ids[k..][0] == ids[k] && ids[k..][1..] == ids[k + 1..];
  }

  function ChannelIds(channels: seq<BCC.ChannelSpec>): (r: seq<ChannelUID>)
    ensures |r| == |channels| && forall i :: 0 <= i < |channels| ==> r[i] == channels[i].uid
  {
    seq(|channels|, i requires 0 <= i < |channels| => channels[i].uid)
  }

  /** The Thing configuration entries `initialize` reads. */
  datatype ThingConfig = ThingConfig(root: ConfigValue, refresh: ConfigValue, mode: ConfigValue, key: ConfigValue)

  /** `initialize` reads root, refresh, mode and key in that order, each falling back to the
      current value; a text entry holding anything but a String fails with ClassCastException,
      and the entries after it are not read. */
  function ReadSettings(cfg: ThingConfig, cur: TopicConfiguration): (r: (Outcome, TopicConfiguration))
    ensures r.0.Done? <==>
      GetOrDefaultText(cfg.root, cur.root).Cast? && GetOrDefaultText(cfg.mode, cur.mode).Cast? && GetOrDefaultText(cfg.key, cur.key).Cast?
    ensures r.0.Threw? ==> r.0 == Threw(ClassCast)
    ensures GetOrDefaultText(cfg.root, cur.root).CastFails? ==> r.1 == cur
    ensures GetOrDefaultText(cfg.root, cur.root).Cast? ==>
      r.1.root == GetOrDefaultText(cfg.root, cur.root).value && r.1.refresh == GetOrDefaultInt(cfg.refresh, cur.refresh)
    ensures r.0.Done? ==>
      r.1.mode == GetOrDefaultText(cfg.mode, cur.mode).value && r.1.key == GetOrDefaultText(cfg.key, cur.key).value
  {
    match GetOrDefaultText(cfg.root, cur.root)
    case CastFails => (Threw(ClassCast), cur)
    case Cast(root) =>
      var refresh := GetOrDefaultInt(cfg.refresh, cur.refresh);
      match GetOrDefaultText(cfg.mode, cur.mode)
      case CastFails => (Threw(ClassCast), cur.(root := root, refresh := refresh))
      case Cast(mode) =>
        match GetOrDefaultText(cfg.key, cur.key)
        case CastFails => (Threw(ClassCast), TopicConfiguration(root, refresh, mode, cur.key))
        case Cast(key) => (Done, TopicConfiguration(root, refresh, mode, key))
  }

  /** The configuration written on a confirmed payment, as `initialize` finds it: a null
      property is absent, and the refresh is a decimal number. */
  function ConfigOf(t: TopicConfiguration): ThingConfig {
    ThingConfig(if t.root.Some? then CText(t.root.value) else CAbsent,
                CDecimal(t.refresh as real),
                if t.mode.Some? then CText(t.mode.value) else CAbsent,
                if t.key.Some? then CText(t.key.value) else CAbsent)
  }

  /** Reading back a written configuration gives the settings written, a null property keeping
      the current value. */
  lemma {:induction false} ConfigurationReadBack(t: TopicConfiguration, cur: TopicConfiguration)
    requires IS.Int32Min <= t.refresh <= IS.Int32Max
    ensures ReadSettings(ConfigOf(t), cur) ==
      (Done, TopicConfiguration(if t.root.Some? then t.root else cur.root, t.refresh,
                                if t.mode.Some? then t.mode else cur.mode,
                                if t.key.Some? then t.key else cur.key))
  {
    assert (t.refresh as real).Floor == t.refresh;
    assert (-(t.refresh as real)).Floor == -t.refresh;
    assert TruncateTowardZero(t.refresh as real) == t.refresh;
  }

  /** One channel's walk over the batch (the inner loop of `updateAllStates`). */
  method FindClaim(batch: seq<Record>, stateTopic: Option<string>) returns (r: CR.ScanResult)
    ensures r == CR.Scan(batch, stateTopic)
  {
    var j := 0;
    while j < |batch|
      invariant 0 <= j <= |batch|
      invariant CR.Scan(batch, stateTopic) == CR.ScanFrom(batch, stateTopic, j)
    {
      var rec := batch[j];
      if rec.state.None? || rec.topic.None? || stateTopic.None? {
        return CR.ScanFailed;
      }
      if CR.Matches(rec, stateTopic.value) {
        return CR.Claimed(j, rec.state.value);
      }
      j := j + 1;
    }
    return CR.NoClaim;
  }

  class IotaThingHandler {
    var root: Option<string>
    var refresh: int
    var mode: Option<string>
    var key: Option<string>
    /** The last batch fetched, shrinking as channels claim records. */
    var data: seq<Record>
    var status: ThingStatus
    /** The Thing's channels, in order. */
    var channels: seq<BCC.ChannelSpec>
    var configs: map<ChannelUID, BCC.ChannelConfig>
    /** The bridge's transport adapter; null until a bridge hands one over. */
    var utils: IU.IotaUtils?
    const book: PS.PaymentBook
    /** `refreshJob`: the interval of the last data refresh job scheduled, and whether it was
        cancelled. */
    var dataJob: Option<int>
    var dataJobCancelled: bool
    /** `refreshJobPayment`: the channel of the last payment refresh job scheduled, and whether
        it was cancelled. */
    var paymentJob: Option<ChannelUID>
    var paymentJobCancelled: bool
    /** The Thing configuration written on a confirmed payment. */
    var thingConfiguration: Option<TopicConfiguration>

    /** The transport adapter keeps its own invariant. */
    predicate Valid()
      reads this, utils
    {
      utils != null ==> utils.Valid()
    }

    function Settings(): TopicConfiguration
      reads this
    {
      TopicConfiguration(root, refresh, mode, key)
    }

    /** The objects the channels' `processMessage` may change. */
    ghost function ConfigFrame(): set<object>
      reads this
    {
      (set u | u in configs :: configs[u] as object) + (set u | u in configs :: configs[u].value as object)
    }

    /** The configs and their values are other objects than the handler, its book and its
        transport adapter. */
    lemma OutsideConfigFrame()
      ensures this !in ConfigFrame() && book !in ConfigFrame() && (utils != null ==> utils !in ConfigFrame())
    {
    }

    constructor (channels: seq<BCC.ChannelSpec>)
      ensures this.channels == channels && configs == map[] && data == [] && status == Unknown
      ensures root == None && refresh == 0 && mode == None && key == None && utils == null
      ensures dataJob == None && paymentJob == None && !dataJobCancelled && !paymentJobCancelled && thingConfiguration == None
      ensures fresh(book) && book.walletByChannel == map[] && book.paymentSent == map[] && book.nextroot == None
      ensures Valid()
    {
      this.channels := channels;
      configs := map[];
      data := [];
      status := Unknown;
      root := None;
      refresh := 0;
      mode := None;
      key := None;
      utils := null;
      book := new PS.PaymentBook();
      dataJob := None;
      paymentJob := None;
      dataJobCancelled := false;
      paymentJobCancelled := false;
      thingConfiguration := None;
    }

    /** The config `initialize` builds for a channel whose pattern has its colon, or none:
        the pattern is split into the service name and the pattern proper. */
    static method NewConfig(c: BCC.ChannelSpec) returns (config: BCC.ChannelConfig)
      requires !SplitPattern(c.settings.transformationPattern).NoColon?
      ensures fresh(config) && FreshConfig(config, c, TopicHandler)
    {
      var split := SplitPattern(c.settings.transformationPattern);
      var pattern := if split.Split? then Some(split.pattern) else c.settings.transformationPattern;
      var serviceName := if split.Split? then Some(split.serviceName) else None;
      config := new BCC.ChannelConfig(c.uid, c.settings, pattern, serviceName, KindOf(c.kind), c.parses, true);
    }

    /** The refresh job a new channel with a usable pattern calls for: a payment channel is
        marked as awaiting payment and gets the payment job, another data channel the data job;
        an unknown channel type, or a delay the scheduler refuses, ends the loop with
        IllegalArgumentException. */
    method ScheduleFor(i: nat, ghost acc: SetupPlan) returns (halted: bool, outcome: Outcome, ghost turn: Turn)
      requires i < |channels| && channels[i].uid !in configs
      requires !SplitPattern(channels[i].settings.transformationPattern).NoColon?
      modifies this`dataJob, this`paymentJob, book`paymentSent
      ensures turn == SetupStep(channels[i], i, configs.Keys, refresh, TopicHandler, acc)
      ensures halted == turn.Halt? && (halted ==> outcome == turn.plan.outcome) && (!halted ==> outcome == Done)
      ensures var p := turn.plan;
        && p.outcome == (if halted then Threw(IllegalArgument) else acc.outcome) && p.badPattern == acc.badPattern
        && p.installed == (if halted then acc.installed else acc.installed + [i])
        && ((p.expected == acc.expected && book.paymentSent == old(book.paymentSent))
            || (p.expected == acc.expected + {channels[i].uid} && book.paymentSent == old(book.paymentSent)[channels[i].uid := false]))
        && ((p.dataJob == acc.dataJob && dataJob == old(dataJob)) || (p.dataJob.Some? && dataJob == p.dataJob))
        && ((p.paymentJob == acc.paymentJob && paymentJob == old(paymentJob)) || (p.paymentJob.Some? && paymentJob == p.paymentJob))
    {
      var c := channels[i];
      halted, outcome := false, Done;
      match c.kind {
        case OtherChannel(_) =>
          // "ThingTypeUID not recognised"
          halted, outcome, turn := true, Threw(IllegalArgument), Halt(acc.(outcome := Threw(IllegalArgument)));
        case PaymentChannel =>
          book.ExpectPayment(c.uid);
          if !ScheduleAccepts(refresh) {
            halted, outcome := true, Threw(IllegalArgument);
            turn := Halt(acc.(outcome := Threw(IllegalArgument), expected := acc.expected + {c.uid}));
            return;
          }
          paymentJob := Some(c.uid);
          turn := Next(acc.(installed := acc.installed + [i], expected := acc.expected + {c.uid}, paymentJob := Some(c.uid)));
        case _ =>
          var interval := DataRefreshInterval(refresh);
          if !ScheduleAccepts(interval) {
            halted, outcome, turn := true, Threw(IllegalArgument), Halt(acc.(outcome := Threw(IllegalArgument)));
            return;
          }
          dataJob := Some(interval);
          turn := Next(acc.(installed := acc.installed + [i], dataJob := Some(interval)));
      }
    }

    /** One turn of `initialize()`'s channel loop, for the channel at position `i`; `halted`
        says whether the loop stops here, and with which outcome. */
    method InstallChannel(i: nat, ghost acc: SetupPlan) returns (halted: bool, outcome: Outcome, ghost turn: Turn)
      requires i < |channels| && acc.outcome == Done && !acc.badPattern
      modifies this`configs, this`status, this`dataJob, this`paymentJob, book`paymentSent
      ensures turn == SetupStep(channels[i], i, old(configs).Keys, refresh, TopicHandler, acc)
      ensures halted == turn.Halt? && (halted ==> outcome == turn.plan.outcome)
      ensures !halted ==> turn.plan.outcome == Done && !turn.plan.badPattern
      ensures var p := turn.plan;
        && (p.installed == acc.installed ==> configs == old(configs))
        && (p.installed != acc.installed ==>
              && p.installed == acc.installed + [i] && channels[i].uid !in old(configs) && channels[i].uid in configs
              && configs == old(configs)[channels[i].uid := configs[channels[i].uid]]
              && fresh(configs[channels[i].uid]) && FreshConfig(configs[channels[i].uid], channels[i], TopicHandler))
        && status == (if p.badPattern && !acc.badPattern then Offline(ConfigurationError, Message(PatternWithoutColon))
                      else old(status))
        && ((p.expected == acc.expected && book.paymentSent == old(book.paymentSent))
            || (p.expected == acc.expected + {channels[i].uid} && book.paymentSent == old(book.paymentSent)[channels[i].uid := false]))
        && ((p.dataJob == acc.dataJob && dataJob == old(dataJob)) || (p.dataJob.Some? && dataJob == p.dataJob))
        && ((p.paymentJob == acc.paymentJob && paymentJob == old(paymentJob)) || (p.paymentJob.Some? && paymentJob == p.paymentJob))
    {
      var c := channels[i];
      halted, outcome := false, Done;
      if c.uid in configs {
        turn := Next(acc);
        return;
      }
      var split := SplitPattern(c.settings.transformationPattern);
      if split.NoColon? {
        status := Offline(ConfigurationError, Message(PatternWithoutColon));
        halted, turn := true, Halt(acc.(badPattern := true));
        return;
      }
      halted, outcome, turn := ScheduleFor(i, acc);
      if halted {
        return;
      }
      var config := NewConfig(c);
      configs := configs[c.uid := config];
    }

    /** One turn of `initialize()`'s channel loop, seen from the loop: `Reflects` is kept for
        the plan so far, and the rest of the plan is what is left to do, or the whole plan
        once the loop halts. */
    method InstallTurn(i: nat, ghost acc: SetupPlan, ghost configs0: map<ChannelUID, BCC.ChannelConfig>,
                       ghost sent0: map<ChannelUID, bool>, ghost data0: Option<int>, ghost pay0: Option<ChannelUID>,
                       ghost full: SetupPlan)
      returns (halted: bool, outcome: Outcome, ghost acc': SetupPlan)
      requires i < |channels| && acc.outcome == Done && !acc.badPattern
      requires SetupFrom(channels, i, configs.Keys, refresh, TopicHandler, acc) == full
      requires Reflects(channels, TopicHandler, configs0, sent0, data0, pay0, acc, configs, book.paymentSent, dataJob, paymentJob)
      modifies this`configs, this`status, this`dataJob, this`paymentJob, book`paymentSent
      ensures Reflects(channels, TopicHandler, configs0, sent0, data0, pay0, acc', configs, book.paymentSent, dataJob, paymentJob)
      ensures halted ==>
        && acc' == full && outcome == full.outcome
        && status == (if full.badPattern then Offline(ConfigurationError, Message(PatternWithoutColon)) else old(status))
      ensures !halted ==>
        && SetupFrom(channels, i + 1, configs.Keys, refresh, TopicHandler, acc') == full
        && acc'.outcome == Done && !acc'.badPattern && status == old(status)
    {
      ghost var known, sent, data, pay := configs, book.paymentSent, dataJob, paymentJob;
      ghost var turn;
      halted, outcome, turn := InstallChannel(i, acc);
      ReflectsStep(channels, TopicHandler, i, configs0, sent0, data0, pay0, acc,
                   known, sent, data, pay, turn.plan, configs, book.paymentSent, dataJob, paymentJob);
      if !halted {
        if channels[i].uid in known {
          KnownAgain(known.Keys, channels[i].uid);
        } else if channels[i].uid in configs {
          KeysAfterPut(known, channels[i].uid, configs[channels[i].uid]);
        }
      }
      acc' := turn.plan;
    }

    /** `initialize()`'s channel loop: each channel without a config gets one, and the refresh
        job its type calls for, until a pattern without a colon stops the loop or an exception
        ends it. */
    method InstallChannels() returns (outcome: Outcome)
      modifies this`configs, this`status, this`dataJob, this`paymentJob, book`paymentSent
      ensures var p := Setup(channels, old(configs).Keys, refresh, TopicHandler);
        && outcome == p.outcome
        && status == (if p.badPattern then Offline(ConfigurationError, Message(PatternWithoutColon)) else old(status))
        && Reflects(channels, TopicHandler, old(configs), old(book.paymentSent), old(dataJob), old(paymentJob), p,
                    configs, book.paymentSent, dataJob, paymentJob)
    {
      ghost var acc := NoSetup;
      ghost var full := Setup(channels, configs.Keys, refresh, TopicHandler);
      var i := 0;
      while i < |channels|
        invariant 0 <= i <= |channels|
        invariant Reflects(channels, TopicHandler, old(configs), old(book.paymentSent), old(dataJob), old(paymentJob), acc,
                           configs, book.paymentSent, dataJob, paymentJob)
        invariant SetupFrom(channels, i, configs.Keys, refresh, TopicHandler, acc) == full
        invariant acc.outcome == Done && !acc.badPattern && status == old(status)
      {
        var halted, o;
        halted, o, acc := InstallTurn(i, acc, old(configs), old(book.paymentSent), old(dataJob), old(paymentJob), full);
        if halted {
          return o;
        }
        i := i + 1;
      }
      return Done;
    }

    /** `handleCommand(channelUID, command)`: a refresh of a known channel other than the payment
        channel re-emits its current value, when it has one; nothing else has an effect. */
    method HandleCommand(uid: ChannelUID, command: Command) returns (emitted: Option<State>)
      ensures emitted.Some? <==>
        uid.id != BCC.PaymentChannelId && uid in configs && command.Refresh? && configs[uid].value.GetValue().Some?
      ensures emitted.Some? ==> emitted == configs[uid].value.GetValue()
    {
      emitted := None;
      if uid.id != BCC.PaymentChannelId {
        if uid !in configs {
          return;  // "Channel not supported"
        }
        var c := configs[uid];
        if command.Refresh? && c.value.GetValue().Some? {
          emitted := c.value.GetValue();
        }
      }
    }

    /** `fetchItemState()`: the cursor step, with the Thing going offline when the root is
        empty; a missing transport adapter is a null dereference once the root is non-empty. */
    method FetchItemState(out1: IU.FetchOutput, nextRoot: string, out2: IU.FetchOutput)
      returns (outcome: Outcome, success: bool, queried: seq<string>)
      requires Valid()
      modifies this`root, this`data, this`status, utils
      ensures Valid()
      ensures utils != null ==>
        var r := Cursor(old(root), old(data), refresh, mode, key, IU.Url(utils.endpoint), old(utils.oldResult), out1, nextRoot, out2);
        && CursorStep(outcome, success, root, data, queried, utils.oldResult, r.noRoot) == r
        && status == if r.noRoot then Offline(CommunicationError, Message(CouldNotFetchData)) else old(status)
      ensures utils == null ==>
        && !success && queried == [] && root == old(root) && data == old(data)
        && (old(root) == Some("") ==> outcome == Done && status == Offline(CommunicationError, Message(CouldNotFetchData)))
        && (old(root) != Some("") ==> outcome == Threw(NullPointer) && status == old(status))
    {
      success, queried := false, [];
      if root.None? {
        return Threw(NullPointer), success, queried;
      }
      if |root.value| == 0 {
        status := Offline(CommunicationError, Message(CouldNotFetchData));
        return Done, success, queried;
      }
      if utils == null {
        return Threw(NullPointer), success, queried;
      }
      outcome, success, queried := FollowRoot(out1, nextRoot, out2);
    }

    /** The fetches of `fetchItemState()` once the root is known to be non-empty and the
        transport adapter present. */
    method FollowRoot(out1: IU.FetchOutput, nextRoot: string, out2: IU.FetchOutput)
      returns (outcome: Outcome, success: bool, queried: seq<string>)
      requires Valid() && utils != null && root.Some? && |root.value| > 0
      modifies this`root, this`data, utils
      ensures Valid()
      ensures CursorStep(outcome, success, root, data, queried, utils.oldResult, false) ==
        Cursor(old(root), old(data), refresh, mode, key, IU.Url(utils.endpoint), old(utils.oldResult), out1, nextRoot, out2)
    {
      success := false;
      var current := root.value;
      var o, answer := utils.FetchFromTangle(refresh, root, mode, key, out1);
      queried := [current];
      if o.Threw? {
        return o, success, queried;
      }
      if answer.Blank? {
        // parsing "" yields no object (IllegalStateException): try the look-ahead root once
        queried := queried + [nextRoot];
        o, answer := utils.FetchFromTangle(refresh, Some(nextRoot), mode, key, out2);
        if o.Threw? {
          return o, success, queried;
        }
        if answer.Blank? {
          return Done, success, queried;
        }
      }
      outcome, success := Absorb(answer.obj);
    }

    /** A parsed response taken into the cursor: NEXTROOT becomes the root, then the first
        entry's array becomes the batch. */
    method Absorb(resp: JsonObject) returns (outcome: Outcome, success: bool)
      modifies this`root, this`data
      ensures forall queried, cache ::
        (CursorStep(outcome, success, root, data, queried, cache, false) == Advance(resp, old(root), old(data), queried, cache))
    {
      outcome, success := Done, false;
      if !IsEmptyObject(resp) {
        var v := Get(resp, NextRootKey);
        if v.None? {
          return Threw(NullPointer), success;
        }
        if !v.value.JText? {
          return Threw(IllegalState), success;
        }
        root := Some(v.value.text);
        var first := resp.entries[0].value;
        if !first.JBatch? {
          return Threw(IllegalState), success;
        }
        data := first.records;
        success := true;
      }
    }

    /** One channel's turn of `updateAllStates`: its config, when it has one, is given the
        channel's payload, and a claimed record leaves the batch. */
    method StepChannel(uid: ChannelUID, transform: CR.Transformer) returns (step: CR.Step)
      modifies this`data, ConfigFrame()
      ensures step == CR.StepChannel(uid, configs, old(data), transform)
      ensures data == if step.Continue? then step.next else old(data)
    {
      if uid !in configs {
        return CR.Stop(Threw(NullPointer));
      }
      var c := configs[uid];
      if c.transformationPattern.Some? {
        var t := transform(c.transformationServiceName, c.transformationPattern.value, data);
        if !t.Transformed? {
          return CR.Stop(Done);
        }
        if t.text.Some? && |t.text.value| > 0 {
          c.ProcessMessage(t.text.value);
          return CR.Continue(Some(CR.Delivery(uid, t.text.value)), [], data);
        }
        return CR.Continue(None, [], data);
      }
      var claim := FindClaim(data, c.stateTopic);
      match claim {
        case ScanFailed =>
          step := CR.Stop(Threw(NullPointer));
        case NoClaim =>
          step := CR.Continue(None, [], data);
        case Claimed(i, payload) =>
          c.ProcessMessage(payload);
          step := CR.Continue(Some(CR.Delivery(uid, payload)), [data[i]], CR.Remove(data, i));
          data := CR.Remove(data, i);
      }
    }

    /** `updateAllStates(data)`: the channels' walk over the batch, handing each payload to its
        channel's `processMessage`; `sent` lists those calls in order, and the batch keeps what
        no channel claimed. */
    method UpdateAllStates(transform: CR.Transformer) returns (outcome: Outcome, sent: seq<CR.Delivery>)
      modifies this`data, ConfigFrame()
      ensures var r := CR.RouteBatch(ChannelIds(channels), configs, old(data), transform);
        outcome == r.outcome && sent == r.deliveries && data == r.remaining
      ensures Settings() == old(Settings()) && utils == old(utils) && status == old(status)
      ensures utils != null ==> unchanged(utils)
    {
      OutsideConfigFrame();
      var ids := ChannelIds(channels);
      sent := [];
      if |data| == 0 {
        return Done, sent;
      }
      ghost var full := CR.Route(ids, configs, data, transform);
      var k := 0;
      while k < |ids|
        invariant 0 <= k <= |ids|
        invariant configs == old(configs) && channels == old(channels)
        invariant Resumes(full, sent, CR.Route(ids[k..], configs, data, transform))
      {
        ResumesStep(full, sent, ids, k, configs, data, transform);
        var step := StepChannel(ids[k], transform);
        if step.Stop? {
          return step.outcome, sent;
        }
        sent := sent + CR.Handed(step.delivery);
        k := k + 1;
      }
      outcome := Done;
    }
  
    /** `initialize()`: the settings are read from the Thing configuration, the bridge's
        transport adapter is taken over when there is a bridge handler, the Thing goes online,
        and the channel loop runs. A configuration entry of the wrong type ends it early with
        ClassCastException. */
    method Initialize(cfg: ThingConfig, bridge: Option<IU.IotaUtils?>) returns (outcome: Outcome)
      requires Valid() && (bridge.Some? && bridge.value != null ==> bridge.value.Valid())
      modifies this`root, this`refresh, this`mode, this`key, this`utils, this`status, this`configs,
               this`dataJob, this`paymentJob, book`paymentSent
      ensures Valid()
      ensures Settings() == ReadSettings(cfg, old(Settings())).1
      ensures ReadSettings(cfg, old(Settings())).0.Threw? ==>
        && outcome == Threw(ClassCast) && utils == old(utils) && status == old(status) && configs == old(configs)
        && book.paymentSent == old(book.paymentSent) && dataJob == old(dataJob) && paymentJob == old(paymentJob)
      ensures ReadSettings(cfg, old(Settings())).0.Done? ==>
        && utils == (if bridge.Some? then bridge.value else old(utils))
        && var p := Setup(channels, old(configs).Keys, refresh, TopicHandler);
        && outcome == p.outcome
        && status == (if p.badPattern then Offline(ConfigurationError, Message(PatternWithoutColon)) else Online)
        && Reflects(channels, TopicHandler, old(configs), old(book.paymentSent), old(dataJob), old(paymentJob), p,
                    configs, book.paymentSent, dataJob, paymentJob)
    {
      var (o, t) := ReadSettings(cfg, Settings());
      root, refresh, mode, key := t.root, t.refresh, t.mode, t.key;
      if o.Threw? {
        return o;
      }
      if bridge.Some? {
        utils := bridge.value;
      }
      status := Online;
      outcome := InstallChannels();
    }

    /** `dispose()`: both refresh jobs are cancelled when they were scheduled, every config
        forgets its listener, and the configs are dropped. */
    method Dispose()
      modifies this`configs, this`dataJobCancelled, this`paymentJobCancelled, ConfigFrame()
      ensures configs == map[]
      ensures dataJobCancelled == (old(dataJobCancelled) || dataJob.Some?)
      ensures paymentJobCancelled == (old(paymentJobCancelled) || paymentJob.Some?)
      ensures forall u :: u in old(configs) ==> !old(configs)[u].hasListener
    {
      if dataJob.Some? {
        dataJobCancelled := true;
      }
      if paymentJob.Some? {
        paymentJobCancelled := true;
      }
      var rest := configs.Values;
      while rest != {}
        invariant rest <= old(configs).Values && configs == old(configs)
        invariant dataJobCancelled == (old(dataJobCancelled) || dataJob.Some?)
        invariant paymentJobCancelled == (old(paymentJobCancelled) || paymentJob.Some?)
        invariant forall c :: c in old(configs).Values && c !in rest ==> !c.hasListener
        decreases rest
      {
        var c :| c in rest;
        c.Dispose();
        rest := rest - {c};
      }
      configs := map[];
    }

    /** One run of the data refresh job: `fetchItemState()`, then `updateAllStates(data)` when
        it found data; an exception from either sends the Thing offline with its message. */
    method DataTick(out1: IU.FetchOutput, nextRoot: string, out2: IU.FetchOutput, transform: CR.Transformer)
      returns (outcome: Outcome, sent: seq<CR.Delivery>)
      requires Valid()
      modifies this`root, this`data, this`status, utils, ConfigFrame()
      ensures Valid()
      ensures utils != null ==>
        var r := Cursor(old(root), old(data), refresh, mode, key, IU.Url(utils.endpoint), old(utils.oldResult), out1, nextRoot, out2);
        && root == r.root && utils.oldResult == r.cache
        && (outcome, sent, data, status) == AfterFetch(r, CR.RouteBatch(ChannelIds(channels), configs, r.data, transform), old(status))
      ensures utils == null ==>
        && sent == [] && root == old(root) && data == old(data)
        && (old(root) == Some("") ==> outcome == Done && status == Offline(CommunicationError, Message(CouldNotFetchData)))
        && (old(root) != Some("") ==> outcome == Threw(NullPointer) && status == Offline(CommunicationError, ExceptionMessage))
    {
      var success, queried;
      outcome, success, queried := FetchItemState(out1, nextRoot, out2);
      sent := [];
      if success {
        outcome, sent := UpdateAllStates(transform);
      }
      if outcome.Threw? {
        status := Offline(CommunicationError, ExceptionMessage);
      }
    }

    /** `checkPaymentStatus(channelUID)`: asks whether the wallet paid for the channel has
        confirmed the transaction. On confirmation the channel shows "success", the Thing
        configuration is rewritten to follow the paid stream from its next root, and the
        payment job is cancelled; otherwise the channel shows "processing...". Without a
        transport adapter, or without a payment job to cancel, it fails on a null reference. */
    method CheckPaymentStatus(uid: ChannelUID, confirmed: Option<string> -> bool) returns (outcome: Outcome)
      requires uid in configs
      modifies this`thingConfiguration, this`paymentJobCancelled, configs[uid], configs[uid].value
      ensures var confirm := confirmed(Lookup(book.walletByChannel, uid));
        var message := if confirm then PS.PaymentSuccess else PS.PaymentProcessing;
        && (outcome.Done? <==> utils != null && (confirm ==> paymentJob.Some?))
        && (outcome.Threw? ==> outcome == Threw(NullPointer))
        && (utils != null && configs[uid].hasListener && configs[uid].Accepts(message) ==>
              configs[uid].published == old(configs[uid].published) + [StringType(message)])
        && (utils != null && confirm ==>
              thingConfiguration == Some(TopicConfiguration(book.nextroot, PS.ConfirmedRefresh, mode, configs[uid].ownkey)))
        && (utils == null || !confirm ==> thingConfiguration == old(thingConfiguration))
        && paymentJobCancelled == (old(paymentJobCancelled) || (outcome.Done? && confirm))
    {
      var config := configs[uid];
      var wallet := Lookup(book.walletByChannel, uid);
      if utils == null {
        return Threw(NullPointer);
      }
      if confirmed(wallet) {
        config.ProcessMessage(PS.PaymentSuccess);
        thingConfiguration := Some(TopicConfiguration(book.nextroot, PS.ConfirmedRefresh, mode, config.ownkey));
        if paymentJob.None? {
          return Threw(NullPointer);
        }
        paymentJobCancelled := true;
      } else {
        config.ProcessMessage(PS.PaymentProcessing);
      }
      return Done;
    }

    /** The first half of a payment tick: the payment attempt, made with the bridge's adapter
        standing for the `utils != null` check; a missing root sends the Thing offline with
        "Could not fetch data". */
    method AttemptPayment(uid: ChannelUID, out: IU.FetchOutput, encrypt: PS.Encrypter, ledger: PS.Ledger)
      returns (outcome: Outcome, ghost paid: PS.Paid)
      requires uid in configs
      modifies this`status, book
      ensures forall u :: u in old(book.paymentSent) && old(book.paymentSent)[u] ==> u in book.paymentSent && book.paymentSent[u]
      ensures uid in book.paymentSent && book.paymentSent[uid] && !old(uid in book.paymentSent && book.paymentSent[uid]) ==>
        uid in book.walletByChannel && uid !in old(book.walletByChannel)
      ensures status == old(status) || status == Offline(CommunicationError, Message(CouldNotFetchData))
      ensures paid == old(PS.PayRuns(uid, configs[uid], refresh, book.BooksOf(), [PS.Run(out, encrypt, ledger.(bridgeUtils := utils != null))]))
      ensures outcome == paid.outcome && book.BooksOf() == paid.books
      ensures status == (if paid.attempt.Some? && paid.attempt.value.noRoot then Offline(CommunicationError, Message(CouldNotFetchData))
                         else old(status))
    {
      PS.PayOneRun(uid, configs[uid], refresh, book.BooksOf(), PS.Run(out, encrypt, ledger.(bridgeUtils := utils != null)));
      var o, attempt := book.PayOnce(uid, configs[uid], refresh, out, encrypt, ledger.(bridgeUtils := utils != null));
      paid := PS.Paid(o, attempt, book.BooksOf());
      if attempt.Some? && attempt.value.noRoot {
        status := Offline(CommunicationError, Message(CouldNotFetchData));
      }
      outcome := o;
    }

    /** The second half of a payment tick, once the attempt has ended with `o`: an exception
        sends the Thing offline with its message; otherwise the payment status is checked, and
        an exception there does the same. */
    method FinishTick(uid: ChannelUID, o: Outcome, confirmed: Option<string> -> bool) returns (outcome: Outcome)
      requires uid in configs
      modifies this`status, this`thingConfiguration, this`paymentJobCancelled, configs[uid], configs[uid].value
      ensures o.Threw? ==>
        && outcome == o && status == Offline(CommunicationError, ExceptionMessage)
        && thingConfiguration == old(thingConfiguration) && paymentJobCancelled == old(paymentJobCancelled)
      ensures o.Done? ==>
        var confirm := confirmed(Lookup(book.walletByChannel, uid));
        var message := if confirm then PS.PaymentSuccess else PS.PaymentProcessing;
        && (outcome.Done? <==> utils != null && (confirm ==> paymentJob.Some?))
        && (outcome.Threw? ==> outcome == Threw(NullPointer))
        && (utils != null && configs[uid].hasListener && configs[uid].Accepts(message) ==>
              configs[uid].published == old(configs[uid].published) + [StringType(message)])
        && (utils != null && confirm ==>
              thingConfiguration == Some(TopicConfiguration(book.nextroot, PS.ConfirmedRefresh, mode, configs[uid].ownkey)))
        && (utils == null || !confirm ==> thingConfiguration == old(thingConfiguration))
        && paymentJobCancelled == (old(paymentJobCancelled) || (outcome.Done? && confirm))
        && status == (if outcome.Threw? then Offline(CommunicationError, ExceptionMessage) else old(status))
    {
      if o.Threw? {
        status := Offline(CommunicationError, ExceptionMessage);
        return o;
      }
      outcome := CheckPaymentStatus(uid, confirmed);
      if outcome.Threw? {
        status := Offline(CommunicationError, ExceptionMessage);
      }
    }

    /** One run of a payment channel's refresh job: for a channel with a config, a payment is
        attempted while its flag is false, then the payment status is checked. An exception
        sends the Thing offline with its message. */
    method PaymentTick(uid: ChannelUID, out: IU.FetchOutput, encrypt: PS.Encrypter, ledger: PS.Ledger,
                       confirmed: Option<string> -> bool) returns (outcome: Outcome, ghost paid: PS.Paid)
      modifies this`status, this`thingConfiguration, this`paymentJobCancelled, book, ConfigFrame()
      ensures uid !in configs ==>
        && outcome == Done && status == old(status) && thingConfiguration == old(thingConfiguration)
        && paymentJobCancelled == old(paymentJobCancelled) && unchanged(book)
      ensures forall u :: u in old(book.paymentSent) && old(book.paymentSent)[u] ==> u in book.paymentSent && book.paymentSent[u]
      ensures uid in book.paymentSent && book.paymentSent[uid] && !old(uid in book.paymentSent && book.paymentSent[uid]) ==>
        uid in book.walletByChannel && uid !in old(book.walletByChannel)
      ensures outcome.Threw? ==> status == Offline(CommunicationError, ExceptionMessage)
      ensures outcome.Done? ==> status == old(status) || status == Offline(CommunicationError, Message(CouldNotFetchData))
      ensures thingConfiguration != old(thingConfiguration) || paymentJobCancelled != old(paymentJobCancelled) ==>
        uid in configs && utils != null && confirmed(Lookup(book.walletByChannel, uid))
      ensures outcome.Done? && uid in configs ==>
        var confirm := confirmed(Lookup(book.walletByChannel, uid));
        var message := if confirm then PS.PaymentSuccess else PS.PaymentProcessing;
        && utils != null
        && (configs[uid].hasListener && configs[uid].Accepts(message) ==>
              configs[uid].published == old(configs[uid].published) + [StringType(message)])
        && (confirm ==>
              thingConfiguration == Some(TopicConfiguration(book.nextroot, PS.ConfirmedRefresh, mode, configs[uid].ownkey))
              && paymentJob.Some? && paymentJobCancelled)
      ensures uid in configs ==>
        paid == old(PS.PayRuns(uid, configs[uid], refresh, book.BooksOf(), [PS.Run(out, encrypt, ledger.(bridgeUtils := utils != null))]))
      ensures uid in configs ==>
        var confirm := confirmed(Lookup(paid.books.walletByChannel, uid));
        && book.BooksOf() == paid.books
        && (outcome.Threw? <==> paid.outcome.Threw? || utils == null || (confirm && paymentJob.None?))
        && (paid.outcome.Threw? ==>
              outcome == paid.outcome && thingConfiguration == old(thingConfiguration)
              && paymentJobCancelled == old(paymentJobCancelled))
        && status == (if outcome.Threw? then Offline(CommunicationError, ExceptionMessage)
                      else if paid.attempt.Some? && paid.attempt.value.noRoot then Offline(CommunicationError, Message(CouldNotFetchData))
                      else old(status))
    {
      paid := PS.Paid(Done, None, book.BooksOf());
      if uid !in configs {
        return Done, paid;
      }
      var o;
      o, paid := AttemptPayment(uid, out, encrypt, ledger);
      outcome := FinishTick(uid, o, confirmed);
    }
  }
}
