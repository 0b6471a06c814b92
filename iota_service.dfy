/** The io bundle's metadata listener: when an item is given IOTA metadata with value "yes" it
    provisions a MAM stream for it (seed, publishing utils, debouncer, key, payment terms),
    attaches the state listener to the item and publishes its state; metadata turned to "no"
    removes the item from the bundle. */
module IotaService {
  import opened Common
  import IU = IotaUtils
  import IS = IotaSettings
  import ISL = ItemStateListener

  /** A seed is used as given only when it is non-empty and exactly 81 characters long. */
  const SeedLength: nat := 81

  /** The IOTA node the bundle talks to; its port is text, parsed when utils are created. */
  datatype Bridge = Bridge(protocol: string, host: string, port: string)

  // ---------------------------------------------------------------- the metadata registry

  predicate SameUID(a: ISL.Metadata, b: ISL.Metadata) {
    a.namespace == b.namespace && a.itemName == b.itemName
  }

  /** `metadataRegistry.update(m)`: the entry with m's UID is replaced by m. */
  function Replace(registry: seq<ISL.Metadata>, m: ISL.Metadata): (r: seq<ISL.Metadata>)
    ensures |r| == |registry|
    ensures forall i :: 0 <= i < |r| && SameUID(registry[i], m) ==> r[i] == m
    ensures forall i :: 0 <= i < |r| && !SameUID(registry[i], m) ==> r[i] == registry[i]
  {
    if registry == [] then []
    else Replace(registry[..|registry| - 1], m) + [if SameUID(registry[|registry| - 1], m) then m else registry[|registry| - 1]]
  }

  /** A second update of the same entry wins over the first. */
  lemma ReplaceTwice(registry: seq<ISL.Metadata>, a: ISL.Metadata, b: ISL.Metadata)
    requires SameUID(a, b)
    ensures Replace(Replace(registry, a), b) == Replace(registry, b)
  {
    var r1, r2 := Replace(Replace(registry, a), b), Replace(registry, b);
    assert forall i :: 0 <= i < |r1| ==> r1[i] == r2[i];
  }

  /** The registry without any metadata of the named item, in its order. */
  function WithoutItem(registry: seq<ISL.Metadata>, name: string): (r: seq<ISL.Metadata>)
    ensures forall m :: m in r <==> m in registry && m.itemName != name
    ensures |r| <= |registry|
  {
    if registry == [] then []
    else
      var rest := WithoutItem(registry[..|registry| - 1], name);
      var last := registry[|registry| - 1];
      assert registry == registry[..|registry| - 1] + [last];
      if last.itemName == name then rest else rest + [last]
  }

  /** Removing an item's metadata keeps the registry unchanged when it has none. */
  lemma {:induction false} WithoutItemKeepsOthers(registry: seq<ISL.Metadata>, name: string)
    requires forall m :: m in registry ==> m.itemName != name
    ensures WithoutItem(registry, name) == registry
  {
    if registry != [] {
      var init := registry[..|registry| - 1];
      assert forall m :: m in init ==> m in registry;
      WithoutItemKeepsOthers(init, name);
      assert registry == init + [registry[|registry| - 1]];
    }
  }

  // ---------------------------------------------------------------- provisioning rules

  predicate ValidSeed(s: string) {
    s != "" && |s| == SeedLength
  }

  /** The seed a stream is published on: the configured one when valid, else a new one. */
  function ChosenSeed(given: Option<string>, generated: string): (r: string)
    ensures r == generated || (given == Some(r) && ValidSeed(r))
    ensures given.Some? && ValidSeed(given.value) ==> r == given.value
  {
    if given.Some? && ValidSeed(given.value) then given.value else generated
  }

  /** The seed is written back to the metadata when it was missing or invalid. */
  predicate SeedWritten(c: ISL.MetaConfig) {
    !(c.seed.Some? && ValidSeed(c.seed.value))
  }

  /** A valid configured seed that some item already publishes on only gains the item's link. */
  predicate Reuses(c: ISL.MetaConfig, utils: map<string, ISL.Publisher>) {
    c.seed.Some? && ValidSeed(c.seed.value) && c.seed.value in utils
  }

  /** Restricted mode, on a non-empty seed. */
  predicate Restricts(c: ISL.MetaConfig, seed: string) {
    c.mode == Some(ISL.Restricted) && seed != ""
  }

  /** In restricted mode a missing key is generated and written back. */
  predicate KeyGenerated(c: ISL.MetaConfig, seed: string) {
    Restricts(c, seed) && c.key.None?
  }

  /** The stream keys after provisioning: a configured non-empty key is stored, a configured
      empty key stores nothing, a missing key stores the generated one. */
  function KeysAfter(keys: map<string, string>, c: ISL.MetaConfig, seed: string, newKey: string): (r: map<string, string>)
    ensures !Restricts(c, seed) ==> r == keys
    ensures Restricts(c, seed) && c.key == Some("") ==> r == keys
    ensures r != keys ==> seed in r && r == keys[seed := r[seed]] && (r[seed] == newKey || c.key == Some(r[seed]))
  {
    if !Restricts(c, seed) then keys
    else if c.key.None? then keys[seed := newKey]
    else if c.key.value != "" then keys[seed := c.key.value]
    else keys
  }

  /** The metadata entry as written back: with the chosen seed when it was replaced and with
      the generated key when one was generated. */
  function WrittenBack(m: ISL.Metadata, seed: string, newKey: string): (r: ISL.Metadata)
    ensures SameUID(r, m) && r.value == m.value
    ensures r.config.seed == Some(ChosenSeed(m.config.seed, seed)) || r.config.seed == m.config.seed
    ensures SeedWritten(m.config) ==> r.config.seed == Some(seed)
    ensures r.config.key == (if KeyGenerated(m.config, seed) then Some(newKey) else m.config.key)
    ensures r.config.mode == m.config.mode && r.config.price == m.config.price && r.config.wallet == m.config.wallet
  {
    var c := m.config;
    var c1 := if SeedWritten(c) then c.(seed := Some(seed)) else c;
    var c2 := if KeyGenerated(c, seed) then c1.(key := Some(newKey)) else c1;
    m.(config := c2)
  }

  /** A stream that charges: restricted, a readable non-zero price and a non-empty wallet. */
  predicate Charges(c: ISL.MetaConfig, seed: string) {
    && Restricts(c, seed)
    && ISL.ReadPrice(c.price).Read? && ISL.ReadPrice(c.price).value != 0.0
    && c.wallet.Some? && c.wallet.value != ""
  }

  /** The exception provisioning raises after the seed is settled, if any: a missing mode, and
      in restricted mode an unreadable price or a missing wallet for a non-zero price. */
  function ProvisionFailure(c: ISL.MetaConfig, seed: string): (r: Option<Failure>)
    ensures r.None? && Restricts(c, seed) ==> ISL.ReadPrice(c.price).Read?
    ensures Charges(c, seed) ==> r.None?
    ensures c.mode.Some? && c.mode.value != ISL.Restricted ==> r.None?
  {
    if c.mode.None? then Some(NullPointer)
    else if !Restricts(c, seed) then None
    else
      match ISL.ReadPrice(c.price)
      case Fails(f) => Some(f)
      case Read(p) => if p != 0.0 && c.wallet.None? then Some(NullPointer) else None
  }

  class IotaService {
    const listener: ISL.IotaItemStateChangeListener
    const bridge: Bridge
    /** The item registry, by item name. */
    var items: map<string, ISL.Item>
    /** The metadata registry. */
    var registry: seq<ISL.Metadata>
    /** The items the state listener is attached to, by name. */
    var listening: set<string>

    constructor (listener: ISL.IotaItemStateChangeListener, bridge: Bridge, items: map<string, ISL.Item>, registry: seq<ISL.Metadata>)
      ensures this.listener == listener && this.bridge == bridge
      ensures this.items == items && this.registry == registry && listening == {}
    {
      this.listener := listener;
      this.bridge := bridge;
      this.items := items;
      this.registry := registry;
      listening := {};
    }

    /** `updateMaps(item, seed)`: the item is linked to the seed, the seed gets a new debouncer
        and new utils publishing from start 0; a bridge port that is not a number fails while
        the utils are built. */
    method UpdateMaps(uid: string, seed: string) returns (outcome: Outcome)
      modifies listener`seedByUID, listener`debouncers, listener`utilsBySeed
      ensures listener.seedByUID == old(listener.seedByUID)[uid := seed]
      ensures listener.debouncers == old(listener.debouncers) + {seed}
      ensures var port := IS.ParseInt(bridge.port);
        && (port.None? ==> outcome == Threw(NumberFormat) && listener.utilsBySeed == old(listener.utilsBySeed))
        && (port.Some? ==> outcome == Done && listener.utilsBySeed == old(listener.utilsBySeed)[
              seed := ISL.Publisher(IU.Endpoint(bridge.protocol, bridge.host, port.value), seed, 0)])
    {
      listener.seedByUID := listener.seedByUID[uid := seed];
      listener.debouncers := listener.debouncers + {seed};
      var port := IS.ParseInt(bridge.port);
      if port.None? {
        return Threw(NumberFormat);
      }
      listener.utilsBySeed := listener.utilsBySeed[seed := ISL.Publisher(IU.Endpoint(bridge.protocol, bridge.host, port.value), seed, 0)];
      return Done;
    }

    /** The seed branch of `added`: a valid seed some item already publishes on is shared; a
        valid new seed gets fresh maps and utils that recompute their start (-1); a missing or
        invalid seed is replaced by the generated one, which is written back. */
    method ProvisionSeed(item: ISL.Item, m: ISL.Metadata, generated: string) returns (outcome: Outcome, seed: string, written: ISL.Metadata)
      modifies listener`seedByUID, listener`debouncers, listener`utilsBySeed, this`registry
      ensures seed == ChosenSeed(m.config.seed, generated)
      ensures written == (if SeedWritten(m.config) then m.(config := m.config.(seed := Some(seed))) else m)
      ensures listener.seedByUID == old(listener.seedByUID)[item.uid := seed]
      ensures Reuses(m.config, old(listener.utilsBySeed)) ==>
        && outcome == Done && listener.debouncers == old(listener.debouncers)
        && listener.utilsBySeed == old(listener.utilsBySeed) && registry == old(registry)
      ensures !Reuses(m.config, old(listener.utilsBySeed)) ==>
        var port := IS.ParseInt(bridge.port);
        && listener.debouncers == old(listener.debouncers) + {seed}
        && (port.None? ==> outcome == Threw(NumberFormat) && listener.utilsBySeed == old(listener.utilsBySeed) && registry == old(registry))
        && (port.Some? ==>
              && outcome == Done
              && listener.utilsBySeed == old(listener.utilsBySeed)[seed :=
                   ISL.Publisher(IU.Endpoint(bridge.protocol, bridge.host, port.value), seed, if SeedWritten(m.config) then 0 else -1)]
              && registry == (if SeedWritten(m.config) then Replace(old(registry), written) else old(registry)))
    {
      written := m;
      if SeedWritten(m.config) {
        seed := generated;
        written := m.(config := m.config.(seed := Some(seed)));
        outcome := UpdateMaps(item.uid, seed);
        if outcome.Threw? {
          return;
        }
        registry := Replace(registry, written);
      } else {
        seed := m.config.seed.value;
        if seed in listener.utilsBySeed {
          listener.seedByUID := listener.seedByUID[item.uid := seed];
          outcome := Done;
        } else {
          outcome := UpdateMaps(item.uid, seed);
          if outcome.Threw? {
            return;
          }
          listener.utilsBySeed := listener.utilsBySeed[seed := listener.utilsBySeed[seed].(start := -1)];
        }
      }
    }

    /** The key branch of `added`, in restricted mode: `written` is the metadata as written
        back so far. */
    method ProvisionKey(c: ISL.MetaConfig, written: ISL.Metadata, seed: string, newKey: string)
      requires Restricts(c, seed)
      modifies listener`privateKeyBySeed, this`registry
      ensures listener.privateKeyBySeed == KeysAfter(old(listener.privateKeyBySeed), c, seed, newKey)
      ensures registry == (if c.key.None? then Replace(old(registry), written.(config := written.config.(key := Some(newKey)))) else old(registry))
    {
      if c.key.Some? {
        if c.key.value != "" {
          listener.privateKeyBySeed := listener.privateKeyBySeed[seed := c.key.value];
        }
      } else {
        listener.privateKeyBySeed := listener.privateKeyBySeed[seed := newKey];
        registry := Replace(registry, written.(config := written.config.(key := Some(newKey))));
      }
    }

    /** The price branch of `added`, in restricted mode: a charging stream starts unpaid, without
        handshake, with its wallet linked to the seed and the price, and a new RSA key pair
        (`rsa` is None when no RSA implementation exists, which `added` catches). */
    method ProvisionPayment(c: ISL.MetaConfig, seed: string, rsa: Option<seq<string>>) returns (outcome: Outcome)
      requires Restricts(c, seed)
      modifies listener`paymentReceivedBySeed, listener`handshakeBySeed, listener`seedByWallet,
               listener`paymentAmountByWallet, listener`rsaKeysBySeed
      ensures outcome == (match ProvisionFailure(c, seed) case Some(f) => Threw(f) case None => Done)
      ensures !Charges(c, seed) ==>
        && listener.paymentReceivedBySeed == old(listener.paymentReceivedBySeed)
        && listener.handshakeBySeed == old(listener.handshakeBySeed)
        && listener.seedByWallet == old(listener.seedByWallet)
        && listener.paymentAmountByWallet == old(listener.paymentAmountByWallet)
        && listener.rsaKeysBySeed == old(listener.rsaKeysBySeed)
      ensures Charges(c, seed) ==>
        var w := c.wallet.value;
        && listener.paymentReceivedBySeed == old(listener.paymentReceivedBySeed)[seed := false]
        && listener.handshakeBySeed == old(listener.handshakeBySeed)[seed := false]
        && listener.seedByWallet == old(listener.seedByWallet)[w := seed]
        && listener.paymentAmountByWallet == old(listener.paymentAmountByWallet)[w := ISL.ReadPrice(c.price).value]
        && listener.rsaKeysBySeed == (if rsa.Some? then old(listener.rsaKeysBySeed)[seed := rsa.value] else old(listener.rsaKeysBySeed))
    {
      var price := ISL.ReadPrice(c.price);
      if price.Fails? {
        return Threw(price.failure);
      }
      if price.value != 0.0 {
        if c.wallet.None? {
          return Threw(NullPointer);
        }
        var w := c.wallet.value;
        if w != "" {
          listener.paymentReceivedBySeed := listener.paymentReceivedBySeed[seed := false];
          listener.handshakeBySeed := listener.handshakeBySeed[seed := false];
          listener.seedByWallet := listener.seedByWallet[w := seed];
          listener.paymentAmountByWallet := listener.paymentAmountByWallet[w := price.value];
          if rsa.Some? {
            listener.rsaKeysBySeed := listener.rsaKeysBySeed[seed := rsa.value];
          }
        }
      }
      return Done;
    }

    /** Whether `added` acts on the metadata: the item registry is non-empty, the item exists
        (a missing one is an ItemNotFoundException, caught), the value is "yes" and the
        configuration is not empty. */
    predicate Acts(m: ISL.Metadata)
      reads this
    {
      items != map[] && m.itemName in items && m.value == Some("yes") && !ISL.IsEmptyConfig(m.config)
    }

    /** The rest of `added` once the seed is settled and `written` is the metadata as written
        back so far: the mode is read, and in restricted mode the key and the payment terms are
        provisioned. Unless an exception ends it (or the missing RSA implementation is caught),
        the state listener is attached to the item and the item's state is published with the
        updated registry. */
    method ProvisionStream(item: ISL.Item, c: ISL.MetaConfig, written: ISL.Metadata, seed: string, newKey: string,
                           rsa: Option<seq<string>>, state: string, now: string) returns (outcome: Outcome)
      modifies this`registry, this`listening, listener`privateKeyBySeed, listener`paymentReceivedBySeed,
               listener`handshakeBySeed, listener`seedByWallet, listener`paymentAmountByWallet, listener`rsaKeysBySeed,
               listener`batches, listener`pending
      ensures
        && registry == (if KeyGenerated(c, seed) then Replace(old(registry), written.(config := written.config.(key := Some(newKey)))) else old(registry))
        && listener.privateKeyBySeed == KeysAfter(old(listener.privateKeyBySeed), c, seed, newKey)
        && (Charges(c, seed) ==> listener.paymentReceivedBySeed == old(listener.paymentReceivedBySeed)[seed := false]
                                 && listener.seedByWallet == old(listener.seedByWallet)[c.wallet.value := seed])
        && (!Charges(c, seed) ==> listener.paymentReceivedBySeed == old(listener.paymentReceivedBySeed)
                                  && listener.seedByWallet == old(listener.seedByWallet))
        && (ProvisionFailure(c, seed).Some? ==>
              && outcome == Threw(ProvisionFailure(c, seed).value) && listening == old(listening)
              && listener.batches == old(listener.batches) && listener.pending == old(listener.pending))
        && (ProvisionFailure(c, seed).None? && Charges(c, seed) && rsa.None? ==>
              && outcome == Done && listening == old(listening)
              && listener.batches == old(listener.batches) && listener.pending == old(listener.pending))
        && (ProvisionFailure(c, seed).None? && !(Charges(c, seed) && rsa.None?) ==>
              var s := ISL.Scan(registry, item.name, |registry|);
              && listening == old(listening) + {item.name}
              && outcome == (if s.failure.Some? then Threw(s.failure.value) else Done)
              && listener.batches == ISL.Absorbed(old(listener.batches), Lookup(listener.seedByUID, item.uid), ISL.EntryFor(item, state, now), s)
              && listener.pending == ISL.Scheduled(old(listener.pending), Lookup(listener.seedByUID, item.uid), listener.debouncers, s))
    {
      if c.mode.None? {
        return Threw(NullPointer);
      }
      if Restricts(c, seed) {
        ProvisionKey(c, written, seed, newKey);
        outcome := ProvisionPayment(c, seed, rsa);
        if outcome.Threw? {
          return;
        }
        if Charges(c, seed) && rsa.None? {
          return Done;
        }
      }
      listening := listening + {item.name};
      outcome := listener.StateChanged(item, state, now, registry);
    }

    /** `added(element)` once it acts: the seed, then the rest of the stream. The metadata is
        written back with the new seed and the generated key, where there are such. */
    method Provision(m: ISL.Metadata, generatedSeed: string, newKey: string, rsa: Option<seq<string>>,
                     state: string, now: string) returns (outcome: Outcome)
      requires Acts(m)
      modifies this`registry, this`listening, listener`seedByUID, listener`debouncers, listener`utilsBySeed,
               listener`privateKeyBySeed, listener`paymentReceivedBySeed, listener`handshakeBySeed, listener`seedByWallet,
               listener`paymentAmountByWallet, listener`rsaKeysBySeed, listener`batches, listener`pending
      ensures var item := items[m.itemName];
        var c := m.config;
        var seed := ChosenSeed(c.seed, generatedSeed);
        var portFails := !Reuses(c, old(listener.utilsBySeed)) && IS.ParseInt(bridge.port).None?;
        && listener.seedByUID == old(listener.seedByUID)[item.uid := seed]
        && (portFails ==>
              && outcome == Threw(NumberFormat) && registry == old(registry) && listening == old(listening)
              && listener.privateKeyBySeed == old(listener.privateKeyBySeed)
              && listener.paymentReceivedBySeed == old(listener.paymentReceivedBySeed)
              && listener.batches == old(listener.batches) && listener.pending == old(listener.pending))
        && (!portFails ==>
              && seed in listener.utilsBySeed
              && registry == (if SeedWritten(c) || KeyGenerated(c, seed) then Replace(old(registry), WrittenBack(m, seed, newKey)) else old(registry))
              && listener.privateKeyBySeed == KeysAfter(old(listener.privateKeyBySeed), c, seed, newKey)
              && (ProvisionFailure(c, seed).Some? ==> outcome == Threw(ProvisionFailure(c, seed).value) && listening == old(listening))
              && (ProvisionFailure(c, seed).None? && !(Charges(c, seed) && rsa.None?) ==> listening == old(listening) + {item.name}))
    {
      var item := items[m.itemName];
      var seed, written;
      outcome, seed, written := ProvisionSeed(item, m, generatedSeed);
      if outcome.Threw? {
        return;
      }
      outcome := ProvisionStream(item, m.config, written, seed, newKey, rsa, state, now);
      if KeyGenerated(m.config, seed) {
        assert written.(config := written.config.(key := Some(newKey))) == WrittenBack(m, seed, newKey);
        if SeedWritten(m.config) {
          ReplaceTwice(old(registry), written, WrittenBack(m, seed, newKey));
        }
      }
    }

    /** `added(element)`: metadata it does not act on changes nothing. */
    method Added(m: ISL.Metadata, generatedSeed: string, newKey: string, rsa: Option<seq<string>>,
                 state: string, now: string) returns (outcome: Outcome)
      modifies this`registry, this`listening, listener`seedByUID, listener`debouncers, listener`utilsBySeed,
               listener`privateKeyBySeed, listener`paymentReceivedBySeed, listener`handshakeBySeed, listener`seedByWallet,
               listener`paymentAmountByWallet, listener`rsaKeysBySeed, listener`batches, listener`pending
      ensures !Acts(m) ==> outcome == Done && registry == old(registry) && listening == old(listening) && unchanged(listener)
      ensures Acts(m) ==>
        var seed := ChosenSeed(m.config.seed, generatedSeed);
        && listener.seedByUID == old(listener.seedByUID)[items[m.itemName].uid := seed]
        && (ProvisionFailure(m.config, seed).None? && !(Charges(m.config, seed) && rsa.None?)
            && (Reuses(m.config, old(listener.utilsBySeed)) || IS.ParseInt(bridge.port).Some?) ==>
              items[m.itemName].name in listening && seed in listener.utilsBySeed)
    {
      if !Acts(m) {
        return Done;
      }
      outcome := Provision(m, generatedSeed, newKey, rsa, state, now);
    }

    /** `updated(oldElement, element)`: a new value "no" removes the item through the item
        listener, which detaches the state listener and deletes every metadata entry of the
        item; a missing item is caught. A missing value is a null dereference. */
    method Updated(oldElement: ISL.Metadata, element: ISL.Metadata) returns (outcome: Outcome)
      modifies this`listening, this`registry
      ensures element.value.None? ==> outcome == Threw(NullPointer) && listening == old(listening) && registry == old(registry)
      ensures element.value.Some? ==> outcome == Done
      ensures element.value == Some("no") && oldElement.itemName in items ==>
        && listening == old(listening) - {items[oldElement.itemName].name}
        && registry == WithoutItem(old(registry), items[oldElement.itemName].name)
      ensures element.value != Some("no") || oldElement.itemName !in items ==>
        listening == old(listening) && registry == old(registry)
    {
      if element.value.None? {
        return Threw(NullPointer);
      }
      if element.value.value == "no" && oldElement.itemName in items {
        var item := items[oldElement.itemName];
        listening := listening - {item.name};
        registry := WithoutItem(registry, item.name);
      }
      return Done;
    }
  }
}
