/** The binding's payment Thing handler: each of its payment channels pays once for a
    price-gated stream, and once the payment is confirmed a topic Thing following that stream is
    created and the channel is removed from the payment Thing. */
module IotaPaymentThingHandler {
  import opened Common
  import IU = IotaUtils
  import BCC = BindingChannelConfig
  import PS = PaymentSender
  import ITH = IotaThingHandler
  import opened ChannelSetup

  datatype ThingUID = ThingUID(binding: string, thingType: string, id: string)

  /** A Thing handed to the Thing registry: its UID, its bridge, its label and its
      configuration. */
  datatype CreatedThing = CreatedThing(uid: ThingUID, bridge: Option<string>, thingLabel: string,
                                       configuration: ITH.TopicConfiguration)

  const TopicLabel: string := "Topic"

  /** The topic Thing created for a confirmed payment on channel `uid`: it is named after the
      channel, shares the payment Thing's bridge, and follows the paid stream from its next root
      every 60 seconds in restricted mode, with the subscriber's own key. */
  function TopicThingFor(uid: ChannelUID, bridge: Option<string>, nextroot: Option<string>, ownkey: Option<string>): (r: CreatedThing)
    ensures r.uid.id == uid.id && r.bridge == bridge
    ensures r.configuration.root == nextroot && r.configuration.refresh == PS.ConfirmedRefresh
    ensures r.configuration.mode == Some(PS.PaymentMode) && r.configuration.key == ownkey
  {
    CreatedThing(ThingUID("iota", "topic", uid.id), bridge, TopicLabel,
                 ITH.TopicConfiguration(nextroot, PS.ConfirmedRefresh, Some(PS.PaymentMode), ownkey))
  }

  /** The channels left after removing every channel with UID `u`, in their order. */
  function Without(cs: seq<BCC.ChannelSpec>, u: ChannelUID): (r: seq<BCC.ChannelSpec>)
    ensures |r| <= |cs|
    ensures forall i :: 0 <= i < |r| ==> r[i].uid != u
    decreases |cs|
  {
    if |cs| == 0 then []
    else Without(cs[..|cs| - 1], u) + (if cs[|cs| - 1].uid == u then [] else [cs[|cs| - 1]])
  }

  /** Exactly the channels with UID `u` are removed: every other UID keeps its multiplicity. */
  lemma {:induction false} WithoutRemovesExactly(cs: seq<BCC.ChannelSpec>, u: ChannelUID)
    ensures multiset(ITH.ChannelIds(Without(cs, u))) == multiset(ITH.ChannelIds(cs))[u := 0]
    decreases |cs|
  {
    if |cs| > 0 {
      var init, last := cs[..|cs| - 1], cs[|cs| - 1];
      WithoutRemovesExactly(init, u);
      assert cs == init + [last];
      assert ITH.ChannelIds(cs) == ITH.ChannelIds(init) + [last.uid];
      var tail := if last.uid == u then [] else [last];
      assert ITH.ChannelIds(Without(init, u) + tail) == ITH.ChannelIds(Without(init, u)) + ITH.ChannelIds(tail);
    }
  }

  /** Removal keeps the order of the remaining channels: it distributes over concatenation. */
  lemma {:induction false} WithoutKeepsOrder(a: seq<BCC.ChannelSpec>, b: seq<BCC.ChannelSpec>, u: ChannelUID)
    ensures Without(a + b, u) == Without(a, u) + Without(b, u)
    decreases |b|
  {
    if |b| == 0 {
      assert a + b == a;
    } else {
      var init, last := b[..|b| - 1], b[|b| - 1];
      WithoutKeepsOrder(a, init, u);
      assert (a + b)[..|a + b| - 1] == a + init;
      assert (a + b)[|a + b| - 1] == last;
    }
  }

  /** A list without the UID is left as it is. */
  lemma {:induction false} WithoutAbsent(cs: seq<BCC.ChannelSpec>, u: ChannelUID)
    requires forall i :: 0 <= i < |cs| ==> cs[i].uid != u
    ensures Without(cs, u) == cs
    decreases |cs|
  {
    if |cs| > 0 {
      WithoutAbsent(cs[..|cs| - 1], u);
      assert cs == cs[..|cs| - 1] + [cs[|cs| - 1]];
    }
  }

  class IotaPaymentThingHandler {
    var refresh: int
    var status: ThingStatus
    /** The Thing's channels, in order. */
    var channels: seq<BCC.ChannelSpec>
    var configs: map<ChannelUID, BCC.ChannelConfig>
    /** The bridge's transport adapter; null until a bridge hands one over. */
    var utils: IU.IotaUtils?
    const book: PS.PaymentBook
    /** `refreshJob`: the channel of the last payment job scheduled, and whether it was
        cancelled. */
    var paymentJob: Option<ChannelUID>
    var paymentJobCancelled: bool
    /** The Things added to the Thing registry, in order. */
    var created: seq<CreatedThing>
    /** The UID of the payment Thing's bridge. */
    const bridgeUID: Option<string>

    constructor (channels: seq<BCC.ChannelSpec>, bridgeUID: Option<string>)
      ensures this.channels == channels && this.bridgeUID == bridgeUID && configs == map[] && status == Unknown
      ensures refresh == 0 && utils == null && paymentJob == None && !paymentJobCancelled && created == []
      ensures fresh(book) && book.walletByChannel == map[] && book.paymentSent == map[] && book.nextroot == None
    {
      this.channels := channels;
      this.bridgeUID := bridgeUID;
      configs := map[];
      status := Unknown;
      refresh := 0;
      utils := null;
      book := new PS.PaymentBook();
      paymentJob := None;
      paymentJobCancelled := false;
      created := [];
    }

    /** One turn of `initialize()`'s channel loop, for the channel at position `i`: a payment
        channel without a config is marked unpaid, gets its payment job and then its config;
        any other channel type fails with IllegalArgumentException. */
    method InstallChannel(i: nat, ghost acc: SetupPlan) returns (halted: bool, outcome: Outcome, ghost turn: Turn)
      requires i < |channels| && acc.outcome == Done && !acc.badPattern
      modifies this`configs, this`paymentJob, book`paymentSent
      ensures turn == SetupStep(channels[i], i, old(configs).Keys, refresh, PaymentHandler, acc)
      ensures halted == turn.Halt? && (halted ==> outcome == turn.plan.outcome)
      ensures !halted ==> turn.plan.outcome == Done && !turn.plan.badPattern
      ensures var p := turn.plan;
        && p.dataJob == acc.dataJob
        && (p.installed == acc.installed ==> configs == old(configs))
        && (p.installed != acc.installed ==>
              && p.installed == acc.installed + [i] && channels[i].uid !in old(configs) && channels[i].uid in configs
              && configs == old(configs)[channels[i].uid := configs[channels[i].uid]]
              && fresh(configs[channels[i].uid]) && FreshConfig(configs[channels[i].uid], channels[i], PaymentHandler))
        && ((p.expected == acc.expected && book.paymentSent == old(book.paymentSent))
            || (p.expected == acc.expected + {channels[i].uid} && book.paymentSent == old(book.paymentSent)[channels[i].uid := false]))
        && ((p.paymentJob == acc.paymentJob && paymentJob == old(paymentJob)) || (p.paymentJob.Some? && paymentJob == p.paymentJob))
    {
      var c := channels[i];
      halted, outcome := false, Done;
      if c.uid in configs {
        turn := Next(acc);
        return;
      }
      var config := new BCC.ChannelConfig(c.uid, c.settings, c.settings.transformationPattern, None, KindOf(c.kind), c.parses, true);
      if !c.kind.PaymentChannel? {
        // "ThingTypeUID not recognised"
        halted, outcome, turn := true, Threw(IllegalArgument), Halt(acc.(outcome := Threw(IllegalArgument)));
        return;
      }
      book.ExpectPayment(c.uid);
      if !ScheduleAccepts(refresh) {
        halted, outcome := true, Threw(IllegalArgument);
        turn := Halt(acc.(outcome := Threw(IllegalArgument), expected := acc.expected + {c.uid}));
        return;
      }
      paymentJob := Some(c.uid);
      turn := Next(acc.(installed := acc.installed + [i], expected := acc.expected + {c.uid}, paymentJob := Some(c.uid)));
      configs := configs[c.uid := config];
    }

    /** One turn of the channel loop keeps the handler in step with the plan. */
    method InstallTurn(i: nat, ghost acc: SetupPlan, ghost configs0: map<ChannelUID, BCC.ChannelConfig>,
                       ghost sent0: map<ChannelUID, bool>, ghost pay0: Option<ChannelUID>, ghost full: SetupPlan)
      returns (halted: bool, outcome: Outcome, ghost acc': SetupPlan)
      requires i < |channels| && acc.outcome == Done && !acc.badPattern && acc.dataJob == None
      requires SetupFrom(channels, i, configs.Keys, refresh, PaymentHandler, acc) == full
      requires Reflects(channels, PaymentHandler, configs0, sent0, None, pay0, acc, configs, book.paymentSent, None, paymentJob)
      modifies this`configs, this`paymentJob, book`paymentSent
      ensures Reflects(channels, PaymentHandler, configs0, sent0, None, pay0, acc', configs, book.paymentSent, None, paymentJob)
      ensures !acc'.badPattern && acc'.dataJob == None
      ensures halted ==> acc' == full && outcome == full.outcome
      ensures !halted ==>
        && SetupFrom(channels, i + 1, configs.Keys, refresh, PaymentHandler, acc') == full
        && acc'.outcome == Done
    {
      ghost var known, sent, pay := configs, book.paymentSent, paymentJob;
      ghost var turn;
      halted, outcome, turn := InstallChannel(i, acc);
      ReflectsStep(channels, PaymentHandler, i, configs0, sent0, None, pay0, acc,
                   known, sent, None, pay, turn.plan, configs, book.paymentSent, None, paymentJob);
      if !halted {
        if channels[i].uid in known {
          KnownAgain(known.Keys, channels[i].uid);
        } else if channels[i].uid in configs {
          KeysAfterPut(known, channels[i].uid, configs[channels[i].uid]);
        }
      }
      acc' := turn.plan;
    }

    /** `initialize()`'s channel loop: each payment channel without a config gets one and its
        payment job, until an exception ends the loop. */
    method InstallChannels() returns (outcome: Outcome)
      modifies this`configs, this`paymentJob, book`paymentSent
      ensures var p := Setup(channels, old(configs).Keys, refresh, PaymentHandler);
        && outcome == p.outcome && !p.badPattern && p.dataJob == None
        && Reflects(channels, PaymentHandler, old(configs), old(book.paymentSent), None, old(paymentJob), p,
                    configs, book.paymentSent, None, paymentJob)
    {
      ghost var acc := NoSetup;
      ghost var full := Setup(channels, configs.Keys, refresh, PaymentHandler);
      var i := 0;
      while i < |channels|
        invariant 0 <= i <= |channels|
        invariant SetupFrom(channels, i, configs.Keys, refresh, PaymentHandler, acc) == full
        invariant acc.outcome == Done && !acc.badPattern && acc.dataJob == None
        invariant Reflects(channels, PaymentHandler, old(configs), old(book.paymentSent), None, old(paymentJob), acc,
                           configs, book.paymentSent, None, paymentJob)
      {
        var halted, o;
        halted, o, acc := InstallTurn(i, acc, old(configs), old(book.paymentSent), old(paymentJob), full);
        if halted {
          return o;
        }
        i := i + 1;
      }
      return Done;
    }

    /** `initialize()`: the refresh is read from the Thing configuration, the bridge's transport
        adapter is taken over when there is a bridge handler, the channel loop runs, and the
        Thing goes online only when the loop ended normally. */
    method Initialize(cfgRefresh: ConfigValue, bridge: Option<IU.IotaUtils?>) returns (outcome: Outcome)
      modifies this`refresh, this`utils, this`status, this`configs, this`paymentJob, book`paymentSent
      ensures refresh == GetOrDefaultInt(cfgRefresh, old(refresh))
      ensures utils == (if bridge.Some? then bridge.value else old(utils))
      ensures var p := Setup(channels, old(configs).Keys, refresh, PaymentHandler);
        && outcome == p.outcome
        && status == (if outcome.Done? then Online else old(status))
        && Reflects(channels, PaymentHandler, old(configs), old(book.paymentSent), None, old(paymentJob), p,
                    configs, book.paymentSent, None, paymentJob)
    {
      refresh := GetOrDefaultInt(cfgRefresh, refresh);
      if bridge.Some? {
        utils := bridge.value;
      }
      outcome := InstallChannels();
      if outcome.Done? {
        status := Online;
      }
    }

    /** `dispose()`: the last payment job is cancelled when there is one, every config forgets
        its listener, and the configs are dropped. */
    method Dispose()
      modifies this`configs, this`paymentJobCancelled, set u | u in configs :: configs[u]
      ensures configs == map[]
      ensures paymentJobCancelled == (old(paymentJobCancelled) || paymentJob.Some?)
      ensures forall u :: u in old(configs) ==> !old(configs)[u].hasListener
    {
      if paymentJob.Some? {
        paymentJobCancelled := true;
      }
      var rest := configs.Values;
      while rest != {}
        invariant rest <= old(configs).Values && configs == old(configs)
        invariant paymentJobCancelled == (old(paymentJobCancelled) || paymentJob.Some?)
        invariant forall c :: c in old(configs).Values && c !in rest ==> !c.hasListener
        decreases rest
      {
        var c :| c in rest;
        c.Dispose();
        rest := rest - {c};
      }
      configs := map[];
    }

    /** The removal loop of `checkPaymentStatus`: every channel with UID `uid` is dropped from
        the Thing's channels, and for each one the channel's config and recorded wallet are
        removed. */
    method RemoveChannel(uid: ChannelUID)
      modifies this`channels, this`configs, book`walletByChannel
      ensures channels == Without(old(channels), uid)
      ensures uid in ITH.ChannelIds(old(channels)) ==>
        configs == RemoveKey(old(configs), uid) && book.walletByChannel == RemoveKey(old(book.walletByChannel), uid)
      ensures uid !in ITH.ChannelIds(old(channels)) ==>
        configs == old(configs) && book.walletByChannel == old(book.walletByChannel)
    {
      var kept := [];
      var found := false;
      var k := 0;
      while k < |channels|
        invariant 0 <= k <= |channels| && channels == old(channels)
        invariant kept == Without(channels[..k], uid)
        invariant found <==> uid in ITH.ChannelIds(channels[..k])
        invariant found ==> configs == RemoveKey(old(configs), uid) && book.walletByChannel == RemoveKey(old(book.walletByChannel), uid)
        invariant !found ==> configs == old(configs) && book.walletByChannel == old(book.walletByChannel)
      {
        assert channels[..k + 1][..k] == channels[..k];
        assert ITH.ChannelIds(channels[..k + 1]) == ITH.ChannelIds(channels[..k]) + [channels[k].uid];
        if channels[k].uid == uid {
          configs := RemoveKey(configs, uid);
          book.Forget(uid);
          found := true;
        } else {
          kept := kept + [channels[k]];
        }
        k := k + 1;
      }
      assert channels[..k] == channels;
      channels := kept;
    }
  
    /** The first half of a payment tick: the payment attempt, made with the bridge's adapter
        standing for the `utils != null` check; a missing root sends the Thing offline with
        "Could not fetch data". */
    method AttemptPayment(uid: ChannelUID, out: IU.FetchOutput, encrypt: PS.Encrypter, ledger: PS.Ledger)
      returns (outcome: Outcome, ghost paid: PS.Paid)
      requires uid in configs
      modifies this`status, book
      ensures forall u :: u in old(book.paymentSent) && old(book.paymentSent)[u] ==> u in book.paymentSent && book.paymentSent[u]
      ensures uid in book.paymentSent && book.paymentSent[uid] && !old(uid in book.paymentSent && book.paymentSent[uid]) ==>
        uid in book.walletByChannel && uid !in old(book.walletByChannel)
      ensures status == old(status) || status == Offline(CommunicationError, Message(CouldNotFetchData))
      ensures paid == old(PS.PayRuns(uid, configs[uid], refresh, book.BooksOf(), [PS.Run(out, encrypt, ledger.(bridgeUtils := utils != null))]))
      ensures outcome == paid.outcome && book.BooksOf() == paid.books
      ensures status == (if paid.attempt.Some? && paid.attempt.value.noRoot then Offline(CommunicationError, Message(CouldNotFetchData))
                         else old(status))
    {
      PS.PayOneRun(uid, configs[uid], refresh, book.BooksOf(), PS.Run(out, encrypt, ledger.(bridgeUtils := utils != null)));
      var o, attempt := book.PayOnce(uid, configs[uid], refresh, out, encrypt, ledger.(bridgeUtils := utils != null));
      paid := PS.Paid(o, attempt, book.BooksOf());
      if attempt.Some? && attempt.value.noRoot {
        status := Offline(CommunicationError, Message(CouldNotFetchData));
      }
      outcome := o;
    }

    /** `checkPaymentStatus(channelUID)`: asks whether the wallet paid for the channel has
        confirmed the transaction. On confirmation the channel shows "success", a topic Thing
        following the paid stream is added to the registry, and the channel is removed from the
        Thing together with its config and wallet; otherwise the channel shows "processing...".
        Without a transport adapter it fails on a null reference. */
    method CheckPaymentStatus(uid: ChannelUID, confirmed: Option<string> -> bool) returns (outcome: Outcome)
      requires uid in configs
      modifies this`channels, this`configs, this`created, book`walletByChannel, configs[uid], configs[uid].value
      ensures var confirm := confirmed(Lookup(old(book.walletByChannel), uid));
        var message := if confirm then PS.PaymentSuccess else PS.PaymentProcessing;
        var config := old(configs)[uid];
        && (outcome.Done? <==> utils != null)
        && (outcome.Threw? ==> outcome == Threw(NullPointer))
        && (utils != null && config.hasListener && config.Accepts(message) ==>
              config.published == old(config.published) + [StringType(message)])
        && (utils != null && confirm ==>
              && created == old(created) + [TopicThingFor(uid, bridgeUID, book.nextroot, config.ownkey)]
              && channels == Without(old(channels), uid)
              && (uid in ITH.ChannelIds(old(channels)) ==>
                    configs == RemoveKey(old(configs), uid) && book.walletByChannel == RemoveKey(old(book.walletByChannel), uid))
              && (uid !in ITH.ChannelIds(old(channels)) ==>
                    configs == old(configs) && book.walletByChannel == old(book.walletByChannel)))
        && (!(utils != null && confirm) ==>
              && created == old(created) && channels == old(channels) && configs == old(configs)
              && book.walletByChannel == old(book.walletByChannel))
    {
      var config := configs[uid];
      var wallet := Lookup(book.walletByChannel, uid);
      if utils == null {
        return Threw(NullPointer);
      }
      if confirmed(wallet) {
        config.ProcessMessage(PS.PaymentSuccess);
        created := created + [TopicThingFor(uid, bridgeUID, book.nextroot, config.ownkey)];
        RemoveChannel(uid);
      } else {
        config.ProcessMessage(PS.PaymentProcessing);
      }
      return Done;
    }

    /** The second half of a payment tick, once the attempt has ended with `o`: an exception
        sends the Thing offline with its message; otherwise the payment status is checked, and
        an exception there does the same. */
    method FinishTick(uid: ChannelUID, o: Outcome, confirmed: Option<string> -> bool, ghost b: PS.Books)
      returns (outcome: Outcome)
      requires uid in configs && book.BooksOf() == b
      modifies this`status, this`channels, this`configs, this`created, book`walletByChannel, configs[uid], configs[uid].value
      ensures o.Threw? ==>
        && outcome == o && status == Offline(CommunicationError, ExceptionMessage)
        && created == old(created) && channels == old(channels) && configs == old(configs)
        && book.BooksOf() == b
      ensures o.Done? ==>
        var confirm := confirmed(Lookup(b.walletByChannel, uid));
        var message := if confirm then PS.PaymentSuccess else PS.PaymentProcessing;
        var config := old(configs)[uid];
        && (outcome.Done? <==> utils != null)
        && (outcome.Threw? ==> outcome == Threw(NullPointer))
        && (utils != null && config.hasListener && config.Accepts(message) ==>
              config.published == old(config.published) + [StringType(message)])
        && (utils != null && confirm ==>
              && created == old(created) + [TopicThingFor(uid, bridgeUID, b.nextroot, config.ownkey)]
              && channels == Without(old(channels), uid)
              && (uid in ITH.ChannelIds(old(channels)) ==>
                    configs == RemoveKey(old(configs), uid) && book.walletByChannel == RemoveKey(b.walletByChannel, uid))
              && (uid !in ITH.ChannelIds(old(channels)) ==> configs == old(configs) && book.walletByChannel == b.walletByChannel))
        && (!(utils != null && confirm) ==>
              && created == old(created) && channels == old(channels) && configs == old(configs)
              && book.walletByChannel == b.walletByChannel)
        && book.paymentSent == b.paymentSent && book.nextroot == b.nextroot
        && status == (if outcome.Threw? then Offline(CommunicationError, ExceptionMessage) else old(status))
    {
      if o.Threw? {
        status := Offline(CommunicationError, ExceptionMessage);
        return o;
      }
      outcome := CheckPaymentStatus(uid, confirmed);
      if outcome.Threw? {
        status := Offline(CommunicationError, ExceptionMessage);
      }
    }

    /** One run of a payment channel's refresh job: for a channel with a config, a payment is
        attempted while its flag is false, then the payment status is checked. An exception
        sends the Thing offline with its message. Once the payment is confirmed the channel has
        no config any more, so the job, which is not cancelled, does nothing from then on. */
    method PaymentTick(uid: ChannelUID, out: IU.FetchOutput, encrypt: PS.Encrypter, ledger: PS.Ledger,
                       confirmed: Option<string> -> bool) returns (outcome: Outcome, ghost paid: PS.Paid)
      modifies this`status, this`channels, this`configs, this`created, book,
               if uid in configs then {configs[uid], configs[uid].value} else {}
      ensures uid !in old(configs) ==>
        && outcome == Done && status == old(status) && channels == old(channels) && configs == old(configs)
        && created == old(created) && unchanged(book)
      ensures forall u :: u in old(book.paymentSent) && old(book.paymentSent)[u] ==> u in book.paymentSent && book.paymentSent[u]
      ensures uid in book.paymentSent && book.paymentSent[uid] && !old(uid in book.paymentSent && book.paymentSent[uid]) ==>
        uid !in old(book.walletByChannel)
      ensures outcome.Threw? ==> status == Offline(CommunicationError, ExceptionMessage)
      ensures outcome.Done? ==> status == old(status) || status == Offline(CommunicationError, Message(CouldNotFetchData))
      ensures created != old(created) ==>
        && uid in old(configs) && utils != null && outcome.Done?
        && created == old(created) + [TopicThingFor(uid, bridgeUID, book.nextroot, old(configs)[uid].ownkey)]
        && channels == Without(old(channels), uid)
        && (uid in ITH.ChannelIds(old(channels)) ==> uid !in configs)
      ensures created == old(created) ==> channels == old(channels) && configs == old(configs)
      ensures uid in old(configs) ==>
        paid == old(PS.PayRuns(uid, configs[uid], refresh, book.BooksOf(), [PS.Run(out, encrypt, ledger.(bridgeUtils := utils != null))]))
      ensures uid in old(configs) ==>
        var r := paid;
        var confirm := confirmed(Lookup(r.books.walletByChannel, uid));
        && (outcome.Threw? <==> r.outcome.Threw? || utils == null)
        && (r.outcome.Threw? ==> outcome == r.outcome && book.BooksOf() == r.books)
        && book.paymentSent == r.books.paymentSent && book.nextroot == r.books.nextroot
        && status == (if outcome.Threw? then Offline(CommunicationError, ExceptionMessage)
                      else if r.attempt.Some? && r.attempt.value.noRoot then Offline(CommunicationError, Message(CouldNotFetchData))
                      else old(status))
        && (outcome.Done? && confirm ==>
              && created == old(created) + [TopicThingFor(uid, bridgeUID, r.books.nextroot, old(configs)[uid].ownkey)]
              && channels == Without(old(channels), uid)
              && (uid in ITH.ChannelIds(old(channels)) ==> uid !in configs && uid !in book.walletByChannel))
        && (!(outcome.Done? && confirm) ==>
              && created == old(created) && channels == old(channels) && configs == old(configs)
              && book.walletByChannel == r.books.walletByChannel)
    {
      paid := PS.Paid(Done, None, book.BooksOf());
      if uid !in configs {
        return Done, paid;
      }
      var o;
      o, paid := AttemptPayment(uid, out, encrypt, ledger);
      outcome := FinishTick(uid, o, confirmed, paid.books);
    }
  }
}
