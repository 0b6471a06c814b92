/** Setting up a Thing's channels, as both binding handlers' `initialize` does it: reading the
    Thing configuration, splitting transformation patterns, scheduling refresh jobs, and the
    channel loop as a function of the channels, those that already have a config, and the
    refresh interval. */
module ChannelSetup {
  import opened Common
  import BCC = BindingChannelConfig
  import IS = IotaSettings

  // ---------------------------------------------------------------- configuration values

  /** A Thing configuration entry: a text, a decimal number, something else, or absent. */
  datatype ConfigValue = CText(text: string) | CDecimal(decimal: real) | COther | CAbsent

  /** The result of a cast that may raise ClassCastException. */
  datatype Cast<T> = Cast(value: T) | CastFails

  /** `getOrDefault(value, String)`: an absent entry gives the default, a present one must be a
      String. */
  function GetOrDefaultText(v: ConfigValue, d: Option<string>): (r: Cast<Option<string>>)
    ensures r.CastFails? <==> v.CDecimal? || v.COther?
    ensures r.Cast? ==> r.value == if v.CText? then Some(v.text) else d
  {
    match v
    case CText(s) => Cast(Some(s))
    case CAbsent => Cast(d)
    case _ => CastFails
  }

  /** The integer part of a decimal, rounding toward zero. */
  function TruncateTowardZero(x: real): (r: int)
    ensures x >= 0.0 ==> 0.0 <= x - r as real < 1.0
    ensures x < 0.0 ==> 0.0 <= r as real - x < 1.0
  {
    if x >= 0.0 then x.Floor else -((-x).Floor)
  }

  /** The low 32 bits of an integer, as a signed 32-bit value. */
  function Wrap32(n: int): (r: int)
    ensures IS.Int32Min <= r <= IS.Int32Max
    ensures IS.Int32Min <= n <= IS.Int32Max ==> r == n
    ensures (r - n) % 0x1_0000_0000 == 0
  {
    (n + 0x8000_0000) % 0x1_0000_0000 - 0x8000_0000
  }

  /** `getOrDefault(value, int)`: a decimal gives `intValue()` (truncated, then cut to 32 bits);
      anything else gives the default. */
  function GetOrDefaultInt(v: ConfigValue, d: int): (r: int)
    ensures v.CDecimal? ==> IS.Int32Min <= r <= IS.Int32Max
    ensures !v.CDecimal? ==> r == d
  {
    if v.CDecimal? then Wrap32(TruncateTowardZero(v.decimal)) else d
  }

  /** `n` lies less than 1 from `d`, on the side of `d` toward zero. */
  predicate TruncatesTo(d: real, n: int) {
    if d >= 0.0 then 0.0 <= d - n as real < 1.0 else 0.0 <= n as real - d < 1.0
  }

  /** For any decimal whose integer part fits in 32 bits, the integer read is that integer
      part: it has the decimal's sign, lies less than 1 from it toward zero, and is the only
      such integer (60.7 reads as 60, -2.5 as -2). */
  lemma IntValueTruncates(d: real, dflt: int)
    requires IS.Int32Min as real - 1.0 < d < IS.Int32Max as real + 1.0
    ensures var r := GetOrDefaultInt(CDecimal(d), dflt);
      && (d >= 0.0 ==> r >= 0) && (d < 0.0 ==> r <= 0)
      && TruncatesTo(d, r)
      && (forall n: int :: TruncatesTo(d, n) ==> n == r)
  {
    var t := TruncateTowardZero(d);
    assert IS.Int32Min <= t <= IS.Int32Max;
  }

  // ---------------------------------------------------------------- transformation pattern

  /** How `initialize` reads a channel's transformation pattern. */
  datatype PatternSplit =
    | Kept                                        // blank or absent: left as configured
    | Split(serviceName: string, pattern: string) // "TYPE:pattern"
    | NoColon                                     // a configuration error

  /** "TYPE:pattern" is cut at the first colon and the type upper-cased. */
  function SplitPattern(p: Option<string>): (r: PatternSplit)
    ensures r.Kept? <==> !IsNotBlank(p)
    ensures r.NoColon? <==> IsNotBlank(p) && ':' !in p.value
    ensures r.Split? ==> exists t :: ':' !in t && p.value == t + [':'] + r.pattern && r.serviceName == ToUpper(t)
  {
    if !IsNotBlank(p) then Kept
    else match IndexOf(p.value, ':')
      case None => NoColon
      case Some(i) =>
        var t := p.value[..i];
        assert p.value == t + [':'] + p.value[i + 1..];
        Split(ToUpper(t), p.value[i + 1..])
  }

  /** Splitting is undone by joining the parts again, up to the case of the type. */
  lemma {:induction false} SplitPatternRoundTrip(t: string, pattern: string)
    requires ':' !in t && IsNotBlank(Some(t + [':'] + pattern))
    ensures SplitPattern(Some(t + [':'] + pattern)) == Split(ToUpper(t), pattern)
  {
    var p := t + [':'] + pattern;
    var r := SplitPattern(Some(p));
    assert p[|t|] == ':';
    assert r.Split?;
    var t' :| ':' !in t' && p == t' + [':'] + r.pattern && r.serviceName == ToUpper(t');
    assert t' == p[..|t|] == t;
    assert r.pattern == p[|t| + 1..] == pattern;
  }

  // ---------------------------------------------------------------- refresh scheduling

  /** The data refresh runs every `refresh` seconds, and every second when `refresh` is 0. */
  function DataRefreshInterval(refresh: int): (r: int)
    ensures r != 0
    ensures refresh != 0 ==> r == refresh
  {
    if refresh == 0 then 1 else refresh
  }

  /** `scheduleWithFixedDelay` rejects a delay that is not positive. */
  predicate ScheduleAccepts(delay: int) {
    delay > 0
  }

  /** A refresh that is not negative always gives a data job the scheduler accepts. */
  lemma DataRefreshSchedulable(refresh: int)
    requires refresh >= 0
    ensures ScheduleAccepts(DataRefreshInterval(refresh))
  {
  }

  /** The codec kind a channel type gets. */
  function KindOf(t: BCC.ChannelType): BCC.ValueKind {
    match t
    case NumberChannel => BCC.NumberKind
    case PercentageChannel => BCC.PercentKind
    case OnOffChannel => BCC.OnOffKind
    case _ => BCC.TextKind
  }

  /** The two binding handlers that set up channels: the topic Thing handler and the payment
      Thing handler. */
  datatype HandlerKind = TopicHandler | PaymentHandler

  /** A config built by `initialize` from its channel. The topic handler cuts the pattern at its
      colon (a pattern without one is never installed); the payment handler keeps it as
      configured. */
  predicate Installed(c: BCC.ChannelConfig, spec: BCC.ChannelSpec, h: HandlerKind) {
    && c.channelUID == spec.uid
    && c.stateTopic == spec.settings.stateTopic
    && c.kind == KindOf(spec.kind)
    && if h.PaymentHandler? then
         c.transformationPattern == spec.settings.transformationPattern && c.transformationServiceName == None
       else match SplitPattern(spec.settings.transformationPattern)
         case Kept => c.transformationPattern == spec.settings.transformationPattern && c.transformationServiceName == None
         case Split(name, pattern) => c.transformationPattern == Some(pattern) && c.transformationServiceName == Some(name)
         case NoColon => false
  }

  /** What a handler's `initialize` does with a channel that has no config yet. */
  datatype ChannelSetup =
    | Installs    // a config is built and the channel's refresh job scheduled
    | BadPattern  // a pattern without a colon: CONFIGURATION_ERROR, and initialisation stops
    | Rejects     // IllegalArgumentException: an unknown channel type, or a delay the scheduler refuses

  /** The topic handler checks the pattern first, then accepts the four data channel types and
      the payment channel; the payment handler accepts the payment channel only. A payment job
      needs a positive refresh, a data job a positive interval. */
  function SetupOf(spec: BCC.ChannelSpec, refresh: int, h: HandlerKind): (r: ChannelSetup)
    ensures r == BadPattern <==> h.TopicHandler? && SplitPattern(spec.settings.transformationPattern).NoColon?
    ensures r == Installs ==> !spec.kind.OtherChannel? && (h.PaymentHandler? ==> spec.kind.PaymentChannel?)
    ensures r == Installs && spec.kind.PaymentChannel? ==> refresh > 0
    ensures r == Installs ==> refresh >= 0
  {
    if h.TopicHandler? && SplitPattern(spec.settings.transformationPattern).NoColon? then BadPattern
    else match spec.kind
      case OtherChannel(_) => Rejects
      case PaymentChannel => if ScheduleAccepts(refresh) then Installs else Rejects
      case _ => if h.PaymentHandler? || !ScheduleAccepts(DataRefreshInterval(refresh)) then Rejects else Installs
  }

  /** The effect of `initialize`'s channel loop: how it ended, whether a bad pattern stopped it,
      the positions of the channels that got a config (in order), the channels marked as
      awaiting payment, and the last data and payment refresh jobs scheduled (the ones
      `refreshJob` and `refreshJobPayment` then hold). */
  datatype SetupPlan = SetupPlan(outcome: Outcome, badPattern: bool, installed: seq<nat>,
                                 expected: set<ChannelUID>, dataJob: Option<int>, paymentJob: Option<ChannelUID>)

  const NoSetup: SetupPlan := SetupPlan(Done, false, [], {}, None, None)

  /** One channel's turn of the loop: the loop goes on to the next channel, or halts. */
  datatype Turn = Next(plan: SetupPlan) | Halt(plan: SetupPlan)

  /** Channel `c`, at position `i`, given the channels that already have a config (`known`) and
      what the earlier channels did (`acc`). A channel that already has a config is skipped. */
  function SetupStep(c: BCC.ChannelSpec, i: nat, known: set<ChannelUID>, refresh: int, h: HandlerKind, acc: SetupPlan): Turn {
    if c.uid in known then Next(acc)
    else match SetupOf(c, refresh, h)
      case BadPattern => Halt(acc.(badPattern := true))
      case Rejects =>
        Halt(acc.(outcome := Threw(IllegalArgument),
                  expected := acc.expected + (if c.kind.PaymentChannel? then {c.uid} else {})))
      case Installs =>
        if c.kind.PaymentChannel? then
          Next(acc.(installed := acc.installed + [i], expected := acc.expected + {c.uid}, paymentJob := Some(c.uid)))
        else Next(acc.(installed := acc.installed + [i], dataJob := Some(DataRefreshInterval(refresh))))
  }

  /** The loop from channel `i` on. */
  function SetupFrom(channels: seq<BCC.ChannelSpec>, i: nat, known: set<ChannelUID>, refresh: int, h: HandlerKind, acc: SetupPlan): SetupPlan
    requires i <= |channels|
    decreases |channels| - i
  {
    if i == |channels| then acc
    else match SetupStep(channels[i], i, known, refresh, h, acc)
      case Halt(p) => p
      case Next(p) => SetupFrom(channels, i + 1, known + {channels[i].uid}, refresh, h, p)
  }

  function Setup(channels: seq<BCC.ChannelSpec>, known: set<ChannelUID>, refresh: int, h: HandlerKind): (r: SetupPlan)
    ensures forall k :: k in r.installed ==> k < |channels|
  {
    SetupInstallsOnlyNew(channels, 0, known, refresh, h, NoSetup);
    SetupFrom(channels, 0, known, refresh, h, NoSetup)
  }

  /** The UIDs of the channels at the given positions. */
  function Ids(channels: seq<BCC.ChannelSpec>, positions: seq<nat>): set<ChannelUID> {
    set k | k in positions && k < |channels| :: channels[k].uid
  }

  /** Each channel the loop installs is one of the channels from `i` on that had no config and
      whose setup succeeds, and no channel is installed twice. */
  lemma {:induction false} SetupInstallsOnlyNew(channels: seq<BCC.ChannelSpec>, i: nat, known: set<ChannelUID>,
                                                refresh: int, h: HandlerKind, acc: SetupPlan)
    requires i <= |channels|
    ensures var r := SetupFrom(channels, i, known, refresh, h, acc);
      && acc.installed <= r.installed
      && (forall k :: |acc.installed| <= k < |r.installed| ==>
            i <= r.installed[k] < |channels|
            && channels[r.installed[k]].uid !in known && SetupOf(channels[r.installed[k]], refresh, h) == Installs)
      && (forall k, l :: |acc.installed| <= k < l < |r.installed| ==>
            channels[r.installed[k]].uid != channels[r.installed[l]].uid)
    decreases |channels| - i
  {
    if i < |channels| {
      var c := channels[i];
      if c.uid in known {
        SetupInstallsOnlyNew(channels, i + 1, known + {c.uid}, refresh, h, acc);
      } else if SetupOf(c, refresh, h) == Installs {
        var acc' := SetupStep(c, i, known, refresh, h, acc).plan;
        SetupInstallsOnlyNew(channels, i + 1, known + {c.uid}, refresh, h, acc');
      }
    }
  }

  /** When every remaining channel can be set up, the loop ends normally and every one of them
      has a config afterwards. */
  lemma {:induction false} SetupCompletes(channels: seq<BCC.ChannelSpec>, i: nat, known: set<ChannelUID>,
                                          refresh: int, h: HandlerKind, acc: SetupPlan)
    requires i <= |channels|
    requires forall j :: i <= j < |channels| ==> SetupOf(channels[j], refresh, h) == Installs
    ensures var r := SetupFrom(channels, i, known, refresh, h, acc);
      && r.outcome == acc.outcome && r.badPattern == acc.badPattern
      && (forall j :: i <= j < |channels| ==> channels[j].uid in known + Ids(channels, r.installed))
    decreases |channels| - i
  {
    if i < |channels| {
      var c := channels[i];
      var r := SetupFrom(channels, i, known, refresh, h, acc);
      if c.uid in known {
        SetupCompletes(channels, i + 1, known + {c.uid}, refresh, h, acc);
      } else {
        var acc' := SetupStep(c, i, known, refresh, h, acc).plan;
        SetupCompletes(channels, i + 1, known + {c.uid}, refresh, h, acc');
        SetupInstallsOnlyNew(channels, i + 1, known + {c.uid}, refresh, h, acc');
        assert r.installed[|acc.installed|] == i;
        assert c.uid in Ids(channels, r.installed);
      }
    }
  }

  /** A data job is scheduled with a positive interval, a payment job only for a channel
      marked as awaiting payment, and no job without a channel being installed. */
  lemma {:induction false} SetupSchedulesJobs(channels: seq<BCC.ChannelSpec>, i: nat, known: set<ChannelUID>,
                                              refresh: int, h: HandlerKind, acc: SetupPlan)
    requires i <= |channels|
    ensures var r := SetupFrom(channels, i, known, refresh, h, acc);
      r.dataJob != acc.dataJob ==> r.dataJob == Some(DataRefreshInterval(refresh)) && DataRefreshInterval(refresh) > 0
    ensures var r := SetupFrom(channels, i, known, refresh, h, acc);
      r.paymentJob != acc.paymentJob ==> r.paymentJob.Some? && r.paymentJob.value in r.expected && ScheduleAccepts(refresh)
    ensures var r := SetupFrom(channels, i, known, refresh, h, acc);
      r.installed == acc.installed ==> r.dataJob == acc.dataJob && r.paymentJob == acc.paymentJob
    decreases |channels| - i
  {
    if i < |channels| {
      var c := channels[i];
      if c.uid in known {
        SetupSchedulesJobs(channels, i + 1, known + {c.uid}, refresh, h, acc);
      } else if SetupOf(c, refresh, h) == Installs {
        var acc' := SetupStep(c, i, known, refresh, h, acc).plan;
        SetupSchedulesJobs(channels, i + 1, known + {c.uid}, refresh, h, acc');
        SetupKeepsExpected(channels, i + 1, known + {c.uid}, refresh, h, acc');
        SetupInstallsOnlyNew(channels, i + 1, known + {c.uid}, refresh, h, acc');
        DataRefreshSchedulable(refresh);
        var r := SetupFrom(channels, i + 1, known + {c.uid}, refresh, h, acc');
        assert SetupFrom(channels, i, known, refresh, h, acc) == r;
        assert |r.installed| > |acc.installed|;
      }
    }
  }

  lemma {:induction false} SetupKeepsExpected(channels: seq<BCC.ChannelSpec>, i: nat, known: set<ChannelUID>,
                                              refresh: int, h: HandlerKind, acc: SetupPlan)
    requires i <= |channels|
    ensures acc.expected <= SetupFrom(channels, i, known, refresh, h, acc).expected
    decreases |channels| - i
  {
    if i < |channels| {
      var c := channels[i];
      if c.uid in known {
        SetupKeepsExpected(channels, i + 1, known + {c.uid}, refresh, h, acc);
      } else if SetupOf(c, refresh, h) == Installs {
        var acc' := SetupStep(c, i, known, refresh, h, acc).plan;
        SetupKeepsExpected(channels, i + 1, known + {c.uid}, refresh, h, acc');
      }
    }
  }

  /** `paymentSentByChannelUID.put(uid, false)` for each of the channels. */
  function ExpectAll(m: map<ChannelUID, bool>, us: set<ChannelUID>): (r: map<ChannelUID, bool>)
    ensures r.Keys == m.Keys + us
    ensures forall u :: u in us ==> r[u] == false
    ensures forall u :: u in m && u !in us ==> r[u] == m[u]
  {
    map u | u in m.Keys + us :: if u in us then false else m[u]
  }

  /** Marking one more channel as awaiting payment is one more `put(uid, false)`. */
  lemma ExpectOneMore(m: map<ChannelUID, bool>, us: set<ChannelUID>, u: ChannelUID)
    ensures ExpectAll(m, us + {u}) == ExpectAll(m, us)[u := false]
  {
  }

  lemma KnownAgain(known: set<ChannelUID>, u: ChannelUID)
    requires u in known
    ensures known + {u} == known
  {
  }

  lemma KeysAfterPut(m: map<ChannelUID, BCC.ChannelConfig>, u: ChannelUID, c: BCC.ChannelConfig)
    ensures m[u := c].Keys == m.Keys + {u}
  {
  }

  /** Installing the channel at position `i` adds its UID to the installed UIDs. */
  lemma IdsAppend(channels: seq<BCC.ChannelSpec>, positions: seq<nat>, i: nat)
    requires i < |channels|
    ensures Ids(channels, positions + [i]) == Ids(channels, positions) + {channels[i].uid}
  {
    assert i in positions + [i];
    forall u | u in Ids(channels, positions + [i]) ensures u in Ids(channels, positions) + {channels[i].uid} {
      var k :| k in positions + [i] && k < |channels| && channels[k].uid == u;
      if k != i { assert k in positions; }
    }
  }

  /** The handler's state after the loop has run with plan `acc`, starting from configs `configs0`,
      payment flags `sent0` and jobs `data0`/`pay0`: exactly the installed channels were added,
      each built from its channel, the earlier configs are kept, the expected channels are
      flagged unpaid, and the jobs are the last ones scheduled. */
  ghost predicate Reflects(channels: seq<BCC.ChannelSpec>, h: HandlerKind, configs0: map<ChannelUID, BCC.ChannelConfig>,
                           sent0: map<ChannelUID, bool>, data0: Option<int>, pay0: Option<ChannelUID>, acc: SetupPlan,
                           configs: map<ChannelUID, BCC.ChannelConfig>, sent: map<ChannelUID, bool>,
                           data: Option<int>, pay: Option<ChannelUID>)
  {
    && configs.Keys == configs0.Keys + Ids(channels, acc.installed)
    && (forall u :: u in configs0 ==> u in configs && configs[u] == configs0[u])
    && (forall k :: k in acc.installed ==>
          k < |channels| && channels[k].uid in configs && Installed(configs[channels[k].uid], channels[k], h))
    && sent == ExpectAll(sent0, acc.expected)
    && data == (if acc.dataJob.Some? then acc.dataJob else data0)
    && pay == (if acc.paymentJob.Some? then acc.paymentJob else pay0)
  }

  /** One turn of the loop keeps `Reflects`, whatever the turn did. */
  lemma {:induction false} ReflectsStep(channels: seq<BCC.ChannelSpec>, h: HandlerKind, i: nat, configs0: map<ChannelUID, BCC.ChannelConfig>,
                      sent0: map<ChannelUID, bool>, data0: Option<int>, pay0: Option<ChannelUID>, acc: SetupPlan,
                      configs: map<ChannelUID, BCC.ChannelConfig>, sent: map<ChannelUID, bool>,
                      data: Option<int>, pay: Option<ChannelUID>, p: SetupPlan,
                      configs': map<ChannelUID, BCC.ChannelConfig>, sent': map<ChannelUID, bool>,
                      data': Option<int>, pay': Option<ChannelUID>)
    requires i < |channels|
    requires Reflects(channels, h, configs0, sent0, data0, pay0, acc, configs, sent, data, pay)
    requires p.installed == acc.installed ==> configs' == configs
    requires p.installed != acc.installed ==>
      && p.installed == acc.installed + [i] && channels[i].uid !in configs && channels[i].uid in configs'
      && configs' == configs[channels[i].uid := configs'[channels[i].uid]]
      && Installed(configs'[channels[i].uid], channels[i], h)
    requires (p.expected == acc.expected && sent' == sent)
          || (p.expected == acc.expected + {channels[i].uid} && sent' == sent[channels[i].uid := false])
    requires (p.dataJob == acc.dataJob && data' == data) || (p.dataJob.Some? && data' == p.dataJob)
    requires (p.paymentJob == acc.paymentJob && pay' == pay) || (p.paymentJob.Some? && pay' == p.paymentJob)
    ensures Reflects(channels, h, configs0, sent0, data0, pay0, p, configs', sent', data', pay')
  {
    ExpectOneMore(sent0, acc.expected, channels[i].uid);
    if p.installed != acc.installed {
      IdsAppend(channels, acc.installed, i);
      forall k | k in p.installed
        ensures k < |channels| && channels[k].uid in configs' && Installed(configs'[channels[k].uid], channels[k], h)
      {
        if k != i {
          assert k in acc.installed;
          assert channels[k].uid in configs;
          assert configs'[channels[k].uid] == configs[channels[k].uid];
        }
      }
    }
  }

  /** A config as `initialize` builds it: installed from its channel, listening, with its
      codec's initial state and nothing published yet. */
  predicate FreshConfig(c: BCC.ChannelConfig, spec: BCC.ChannelSpec, h: HandlerKind)
    reads c, c.value
  {
    Installed(c, spec, h) && c.hasListener && c.published == [] && c.value.GetValue() == BCC.InitialState(c.kind)
  }

}
