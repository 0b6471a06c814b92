/** The io bundle's item state listener: for every item that carries IOTA metadata it keeps a
    per-seed batch of `{Name, Status: {Topic, State, Time}}` entries, and a debounced flush
    publishes the batch on the seed's MAM stream. Restricted, priced streams first send a
    handshake packet and publish item data only once the payment has been received. */
module ItemStateListener {
  import opened Common
  import opened MamJson
  import IU = IotaUtils

  const Restricted: string := "restricted"

  /** An item as the listener sees it: its name, its UID and its category (the record's topic). */
  datatype Item = Item(name: string, uid: string, category: Option<string>)

  /** The metadata's `price` entry: a BigDecimal, a Double, another type, or absent. */
  datatype Price = DecimalPrice(amount: real) | DoublePrice(amount: real) | OtherPrice | NoPrice

  /** The configuration of an item's IOTA metadata; `others` says whether it holds entries
      besides the five the code reads. */
  datatype MetaConfig = MetaConfig(seed: Option<string>, mode: Option<string>, key: Option<string>,
                                   price: Price, wallet: Option<string>, others: bool)

  /** An entry of the metadata registry: its namespace and item name (together its UID), its
      value ("yes"/"no") and its configuration. */
  datatype Metadata = Metadata(namespace: string, itemName: string, value: Option<string>, config: MetaConfig)

  /** A value read from a map or a configuration, or the exception the read raises. */
  datatype Read<T> = Read(value: T) | Fails(failure: Failure)

  predicate IsEmptyConfig(c: MetaConfig) {
    c.seed.None? && c.mode.None? && c.key.None? && c.price.NoPrice? && c.wallet.None? && !c.others
  }

  /** The price as a double: a BigDecimal is converted, a Double unboxed; an absent entry fails
      on unboxing null and any other type on the cast. */
  function ReadPrice(p: Price): (r: Read<real>)
    ensures r.Read? <==> p.DecimalPrice? || p.DoublePrice?
    ensures r.Read? ==> r.value == p.amount
    ensures p.NoPrice? ==> r == Fails(NullPointer)
    ensures p.OtherPrice? ==> r == Fails(ClassCast)
  {
    match p
    case DecimalPrice(a) => Read(a)
    case DoublePrice(a) => Read(a)
    case NoPrice => Fails(NullPointer)
    case OtherPrice => Fails(ClassCast)
  }

  // ---------------------------------------------------------------- the per-seed batch

  /** The batch entry `addToStates` builds: the Topic only when the item has a category, the
      state's full string and the time of the change. */
  function EntryFor(item: Item, state: string, now: string): (r: ItemEntry)
    ensures r.name == item.name && r.state == state && r.time == now
    ensures r.topic.Some? <==> item.category.Some?
    ensures PublishedRecord(r).topic.Some? <==> item.category.Some?
  {
    ItemEntry(item.name, item.category, state, now)
  }

  /** The batch with every entry of the given name removed, the rest in order. */
  function WithoutName(items: seq<ItemEntry>, name: string): (r: seq<ItemEntry>)
    ensures |r| <= |items|
    ensures forall e :: e in r <==> e in items && e.name != name
  {
    if items == [] then []
    else
      var last := items[|items| - 1];
      WithoutName(items[..|items| - 1], name) + (if last.name == name then [] else [last])
  }

  /** How many entries of the batch carry the given name. */
  function Count(items: seq<ItemEntry>, name: string): nat
  {
    if items == [] then 0
    else Count(items[..|items| - 1], name) + (if items[|items| - 1].name == name then 1 else 0)
  }

  /** The batch after an upsert by name: the entry replaces every entry of its name and goes
      last. */
  function Upsert(items: seq<ItemEntry>, e: ItemEntry): seq<ItemEntry>
  {
    WithoutName(items, e.name) + [e]
  }

  lemma {:induction false} CountAppend(a: seq<ItemEntry>, b: seq<ItemEntry>, name: string)
    ensures Count(a + b, name) == Count(a, name) + Count(b, name)
    decreases |b|
  {
    if b == [] {
      assert a + b == a;
    } else {
      assert (a + b)[..|a + b| - 1] == a + b[..|b| - 1];
      CountAppend(a, b[..|b| - 1], name);
    }
  }

  /** Removing a name removes exactly its entries. */
  lemma {:induction false} WithoutNameSize(items: seq<ItemEntry>, name: string)
    ensures |WithoutName(items, name)| == |items| - Count(items, name)
    ensures Count(WithoutName(items, name), name) == 0
  {
    if items != [] {
      var init := items[..|items| - 1];
      var last := items[|items| - 1];
      WithoutNameSize(init, name);
      CountAppend(WithoutName(init, name), if last.name == name then [] else [last], name);
      assert [last][..0] == [];
    }
  }

  /** Removing a name twice is removing it once. */
  lemma {:induction false} WithoutNameIdempotent(items: seq<ItemEntry>, name: string)
    ensures WithoutName(WithoutName(items, name), name) == WithoutName(items, name)
  {
    if items != [] {
      var init := items[..|items| - 1];
      var last := items[|items| - 1];
      WithoutNameIdempotent(init, name);
      var w := WithoutName(init, name);
      if last.name != name {
        assert (w + [last])[..|w + [last]| - 1] == w;
      } else {
        assert w + [] == w;
      }
    }
  }

  /** After an upsert the batch holds exactly one entry of the item's name, and it is the last
      one; the batch grows by one minus the number of entries the name had. */
  lemma UpsertPlacesOneEntryLast(items: seq<ItemEntry>, e: ItemEntry)
    ensures var r := Upsert(items, e);
      && r[|r| - 1] == e
      && Count(r, e.name) == 1
      && |r| == |items| - Count(items, e.name) + 1
  {
    WithoutNameSize(items, e.name);
    CountAppend(WithoutName(items, e.name), [e], e.name);
    assert [e][..0] == [];
  }

  /** The other entries are the old ones with that name removed, in their old order. */
  lemma UpsertKeepsOthers(items: seq<ItemEntry>, e: ItemEntry)
    ensures WithoutName(Upsert(items, e), e.name) == WithoutName(items, e.name)
  {
    var w := WithoutName(items, e.name);
    assert (w + [e])[..|w + [e]| - 1] == w;
    WithoutNameIdempotent(items, e.name);
  }

  /** Upserting the same entry twice is upserting it once. */
  lemma UpsertIdempotent(items: seq<ItemEntry>, e: ItemEntry)
    ensures Upsert(Upsert(items, e), e) == Upsert(items, e)
  {
    UpsertKeepsOthers(items, e);
  }

  /** With names unique, an upsert grows the batch only for a new name. */
  lemma UpsertSizeWithUniqueNames(items: seq<ItemEntry>, e: ItemEntry)
    requires Count(items, e.name) <= 1
    ensures |Upsert(items, e)| == if Count(items, e.name) == 0 then |items| + 1 else |items|
  {
    UpsertPlacesOneEntryLast(items, e);
  }

  /** The iterator loop of `addToStates` and `removeItemFromJson`: every entry of the given
      name is removed, the others stay in order. */
  method DropName(items: seq<ItemEntry>, name: string) returns (kept: seq<ItemEntry>)
    ensures kept == WithoutName(items, name)
  {
    kept := [];
    var i := 0;
    while i < |items|
      invariant 0 <= i <= |items|
      invariant kept == WithoutName(items[..i], name)
    {
      assert items[..i + 1][..i] == items[..i];
      if items[i].name != name {
        kept := kept + [items[i]];
      }
      i := i + 1;
    }
    assert items[..i] == items;
  }

  /** `addToStates(item, state, json)`: the upsert of the item's entry into a batch. */
  method AddToStates(item: Item, state: string, now: string, items: seq<ItemEntry>) returns (r: seq<ItemEntry>)
    ensures r == Upsert(items, EntryFor(item, state, now))
  {
    r := DropName(items, item.name);
    r := r + [EntryFor(item, state, now)];
  }

  // ---------------------------------------------------------------- scanning the metadata

  /** A flush waiting on a seed's debouncer: the publication of an item change, captured with
      its metadata's mode, price and wallet, or the release of paid data the balance watcher
      schedules. Both use the same debounce key, so the later one replaces the earlier. */
  datatype Request = ItemFlush(mode: string, price: real, wallet: Option<string>) | Release

  /** The flush a metadata entry schedules, or the exception reading its mode or price raises. */
  function RequestOf(m: Metadata): (r: Read<Request>)
    ensures r.Read? <==> m.config.mode.Some? && ReadPrice(m.config.price).Read?
    ensures r.Read? ==> r.value == ItemFlush(m.config.mode.value, m.config.price.amount, m.config.wallet)
    ensures m.config.mode.None? ==> r == Fails(NullPointer)
  {
    match m.config.mode
    case None => Fails(NullPointer)
    case Some(mode) =>
      match ReadPrice(m.config.price)
      case Fails(f) => Fails(f)
      case Read(p) => Read(ItemFlush(mode, p, m.config.wallet))
  }

  /** What the walk over the first `n` registry entries has seen: whether an entry of the item
      matched, the last flush scheduled, and the exception that ended the walk. */
  datatype ScanResult = ScanResult(matched: bool, last: Option<Request>, failure: Option<Failure>)

  function Scan(registry: seq<Metadata>, name: string, n: nat): ScanResult
    requires n <= |registry|
  {
    if n == 0 then ScanResult(false, None, None)
    else
      var s := Scan(registry, name, n - 1);
      if s.failure.Some? || registry[n - 1].itemName != name then s
      else match RequestOf(registry[n - 1])
        case Fails(f) => ScanResult(true, s.last, Some(f))
        case Read(r) => ScanResult(true, Some(r), None)
  }

  /** Once the walk has failed, later entries change nothing. */
  lemma {:induction false} ScanStopsAtFailure(registry: seq<Metadata>, name: string, n: nat, m: nat)
    requires n <= m <= |registry|
    requires Scan(registry, name, n).failure.Some?
    ensures Scan(registry, name, m) == Scan(registry, name, n)
    decreases m - n
  {
    if m > n {
      ScanStopsAtFailure(registry, name, n, m - 1);
    }
  }

  /** An item without metadata in the registry is ignored. */
  lemma {:induction false} ScanWithoutMetadata(registry: seq<Metadata>, name: string, n: nat)
    requires n <= |registry|
    requires forall k :: 0 <= k < n ==> registry[k].itemName != name
    ensures Scan(registry, name, n) == ScanResult(false, None, None)
  {
    if n > 0 {
      ScanWithoutMetadata(registry, name, n - 1);
    }
  }

  /** The flush left scheduled is the one of a metadata entry of this item, and a walk that
      saw no entry of the item neither scheduled nor failed. */
  lemma {:induction false} ScanLastBelongsToItem(registry: seq<Metadata>, name: string, n: nat)
    requires n <= |registry|
    ensures var s := Scan(registry, name, n);
      && (s.last.Some? ==> exists k :: 0 <= k < n && registry[k].itemName == name && RequestOf(registry[k]) == Read(s.last.value))
      && (!s.matched ==> s.last.None? && s.failure.None?)
  {
    if n > 0 {
      ScanLastBelongsToItem(registry, name, n - 1);
    }
  }

  /** A seed's batch, empty when the seed has none yet. */
  function BatchOf(batches: map<Option<string>, seq<ItemEntry>>, seed: Option<string>): seq<ItemEntry>
  {
    if seed in batches then batches[seed] else []
  }

  /** The batches after the walk: the item's entry is upserted into its seed's batch as soon
      as one registry entry of the item was met. */
  function Absorbed(batches: map<Option<string>, seq<ItemEntry>>, seed: Option<string>, e: ItemEntry, s: ScanResult)
    : map<Option<string>, seq<ItemEntry>>
  {
    if s.matched then batches[seed := Upsert(BatchOf(batches, seed), e)] else batches
  }

  /** The flushes after the walk: the last one read is scheduled when the seed has a
      debouncer. */
  function Scheduled(pending: map<string, Request>, seed: Option<string>, debouncers: set<string>, s: ScanResult)
    : map<string, Request>
  {
    if s.last.Some? && seed.Some? && seed.value in debouncers then pending[seed.value := s.last.value] else pending
  }

  /** One step of the walk over the registry, on the values the listener's maps hold: an
      entry of another item changes nothing; an entry of the item upserts its batch entry
      (again), then either schedules the entry's flush or ends the walk with its exception. */
  lemma WalkStep(registry: seq<Metadata>, name: string, i: nat, b0: map<Option<string>, seq<ItemEntry>>,
                 p0: map<string, Request>, seed: Option<string>, d: set<string>, e: ItemEntry,
                 b: map<Option<string>, seq<ItemEntry>>, p: map<string, Request>,
                 b': map<Option<string>, seq<ItemEntry>>, p': map<string, Request>)
    requires i < |registry| && e.name == name
    requires Scan(registry, name, i).failure.None?
    requires b == Absorbed(b0, seed, e, Scan(registry, name, i))
    requires p == Scheduled(p0, seed, d, Scan(registry, name, i))
    requires registry[i].itemName != name ==> b' == b && p' == p
    requires registry[i].itemName == name ==> b' == b[seed := Upsert(BatchOf(b, seed), e)]
    requires registry[i].itemName == name && RequestOf(registry[i]).Fails? ==> p' == p
    requires registry[i].itemName == name && RequestOf(registry[i]).Read? ==>
      p' == if seed.Some? && seed.value in d then p[seed.value := RequestOf(registry[i]).value] else p
    ensures var s' := Scan(registry, name, i + 1);
      && b' == Absorbed(b0, seed, e, s')
      && p' == Scheduled(p0, seed, d, s')
      && (s'.failure.Some? <==> registry[i].itemName == name && RequestOf(registry[i]).Fails?)
      && (s'.failure.Some? ==> s'.failure.value == RequestOf(registry[i]).failure)
  {
    if registry[i].itemName == name {
      UpsertIdempotent(BatchOf(b0, seed), e);
    }
  }

  /** One registry entry of the walk of `stateChanged`: an entry of the item upserts the
      item's batch entry and schedules the entry's flush when the seed has a debouncer, or
      reports the exception reading its mode or price raises. */
  method VisitEntry(item: Item, newState: string, now: string, registry: seq<Metadata>, i: nat, seed: Option<string>,
                    batches: map<Option<string>, seq<ItemEntry>>, pending: map<string, Request>, d: set<string>,
                    b: map<Option<string>, seq<ItemEntry>>, p: map<string, Request>)
    returns (failure: Option<Failure>, b': map<Option<string>, seq<ItemEntry>>, p': map<string, Request>)
    requires i < |registry|
    requires Scan(registry, item.name, i).failure.None?
    requires b == Absorbed(batches, seed, EntryFor(item, newState, now), Scan(registry, item.name, i))
    requires p == Scheduled(pending, seed, d, Scan(registry, item.name, i))
    ensures var s' := Scan(registry, item.name, i + 1);
      && failure == s'.failure
      && b' == Absorbed(batches, seed, EntryFor(item, newState, now), s')
      && p' == Scheduled(pending, seed, d, s')
  {
    var m := registry[i];
    b', p', failure := b, p, None;
    var r: Read<Request> := Read(Release);
    if m.itemName == item.name {
      var updated := AddToStates(item, newState, now, BatchOf(b, seed));
      b' := b[seed := updated];
      r := RequestOf(m);
      if r.Fails? {
        failure := Some(r.failure);
      } else if seed.Some? && seed.value in d {
        p' := p[seed.value := r.value];
      }
    }
    WalkStep(registry, item.name, i, batches, pending, seed, d, EntryFor(item, newState, now), b, p, b', p');
  }

  /** The walk of `stateChanged` over the metadata registry, on the listener's batches and
      scheduled flushes, for the item's seed. */
  method WalkRegistry(item: Item, newState: string, now: string, registry: seq<Metadata>, seed: Option<string>,
                      batches: map<Option<string>, seq<ItemEntry>>, pending: map<string, Request>, d: set<string>)
    returns (outcome: Outcome, b: map<Option<string>, seq<ItemEntry>>, p: map<string, Request>)
    ensures var s := Scan(registry, item.name, |registry|);
      && outcome == (if s.failure.Some? then Threw(s.failure.value) else Done)
      && b == Absorbed(batches, seed, EntryFor(item, newState, now), s)
      && p == Scheduled(pending, seed, d, s)
  {
    b, p := batches, pending;
    var i := 0;
    while i < |registry|
      invariant 0 <= i <= |registry|
      invariant Scan(registry, item.name, i).failure.None?
      invariant b == Absorbed(batches, seed, EntryFor(item, newState, now), Scan(registry, item.name, i))
      invariant p == Scheduled(pending, seed, d, Scan(registry, item.name, i))
    {
      var failure;
      failure, b, p := VisitEntry(item, newState, now, registry, i, seed, batches, pending, d, b, p);
      if failure.Some? {
        ScanStopsAtFailure(registry, item.name, i + 1, |registry|);
        return Threw(failure.value), b, p;
      }
      i := i + 1;
    }
    return Done, b, p;
  }

  // ---------------------------------------------------------------- the flush decision

  /** The handshake packet: `{Type: "handshake", Wallet, Price, RSA: {Modulus, Exponent}}`. */
  datatype Handshake = Handshake(wallet: string, price: real, modulus: string, exponent: string)

  /** A call made on a seed's transport adapter: publishing the batch's items with a mode and
      a key, or starting the handshake with the seed's key. */
  datatype Publication =
    | Publish(seed: string, items: seq<ItemEntry>, mode: string, key: Option<string>)
    | StartHandshake(seed: string, packet: Handshake, key: Option<string>)

  datatype FlushResult = FlushResult(outcome: Outcome, sent: seq<Publication>, handshakeSet: bool)

  predicate PublishesItems(sent: seq<Publication>) {
    exists i :: 0 <= i < |sent| && sent[i].Publish?
  }

  /** `utilsBySeed.get(seed).publishState(jsonObjectBySeed.get(seed).get("Items"), mode, key)`:
      a missing adapter or batch is a null dereference. */
  function PublishStep(seed: string, items: Option<seq<ItemEntry>>, mode: string, key: Option<string>, hasUtils: bool): (r: FlushResult)
    ensures r.outcome.Done? <==> hasUtils && items.Some?
    ensures r.outcome.Threw? ==> r.outcome == Threw(NullPointer) && r.sent == []
    ensures r.outcome.Done? ==> r.sent == [Publish(seed, items.value, mode, key)]
    ensures !r.handshakeSet
  {
    if hasUtils && items.Some? then FlushResult(Done, [Publish(seed, items.value, mode, key)], false)
    else FlushResult(Threw(NullPointer), [], false)
  }

  predicate PricedRestricted(req: Request) {
    req.ItemFlush? && req.mode == Restricted && req.price != 0.0
  }

  /** The decision the debounced runnable makes for a seed, given the seed's batch, stored key,
      adapter, handshake flag, payment flag and RSA key pair as the maps hold them. */
  function FlushPlan(seed: string, req: Request, items: Option<seq<ItemEntry>>, key: Option<string>, hasUtils: bool,
                     handshake: Option<bool>, paid: Option<bool>, rsa: Option<seq<string>>): (r: FlushResult)
    // Published items are the seed's batch; an open stream is published without a key, a
    // restricted one with the seed's stored key.
    ensures forall i :: 0 <= i < |r.sent| && r.sent[i].Publish? ==>
      && r.sent[i].seed == seed && Some(r.sent[i].items) == items
      && r.sent[i].key == (if req.ItemFlush? && req.mode != Restricted then None else key)
      && r.sent[i].mode == (if req.ItemFlush? then req.mode else Restricted)
    // A priced stream publishes item data only once the payment has been received.
    ensures PricedRestricted(req) && PublishesItems(r.sent) ==> paid == Some(true)
    // The handshake is sent exactly when the flag is false and the wallet non-empty (and the
    // maps it reads are filled), and sending it is what sets the flag.
    ensures r.handshakeSet <==>
      && PricedRestricted(req) && handshake == Some(false) && req.wallet.Some? && req.wallet.value != ""
      && rsa.Some? && |rsa.value| >= 2 && hasUtils
    ensures r.handshakeSet ==>
      |r.sent| >= 1 && r.sent[0] == StartHandshake(seed, Handshake(req.wallet.value, req.price, rsa.value[0], rsa.value[1]), key)
    ensures forall i :: 0 <= i < |r.sent| && r.sent[i].StartHandshake? ==> r.handshakeSet && i == 0
    // The key pair is read before the adapter: a short pair fails on its index whether or not
    // the seed has an adapter.
    ensures (&& PricedRestricted(req) && handshake == Some(false) && req.wallet.Some? && req.wallet.value != ""
             && rsa.Some? && |rsa.value| < 2) ==> r == FlushResult(Threw(IndexOutOfBounds), [], false)
    // Everything else publishes once, or fails on a missing adapter or batch.
    ensures !PricedRestricted(req) ==> r == PublishStep(seed, items, if req.ItemFlush? then req.mode else Restricted,
                                                         if req.ItemFlush? && req.mode != Restricted then None else key, hasUtils)
    ensures PricedRestricted(req) && handshake.None? ==> r == FlushResult(Threw(NullPointer), [], false)
  {
    match req
    case Release => PublishStep(seed, items, Restricted, key, hasUtils)
    case ItemFlush(mode, price, wallet) =>
      if mode != Restricted then PublishStep(seed, items, mode, None, hasUtils)
      else if price == 0.0 then PublishStep(seed, items, mode, key, hasUtils)
      else if handshake.None? then FlushResult(Threw(NullPointer), [], false)
      else
        var hs: FlushResult :=
          if handshake.value then FlushResult(Done, [], false)
          else if wallet.None? then FlushResult(Threw(NullPointer), [], false)
          else if wallet.value == "" then FlushResult(Done, [], false)
          else if rsa.None? then FlushResult(Threw(NullPointer), [], false)
          else if |rsa.value| < 2 then FlushResult(Threw(IndexOutOfBounds), [], false)
          else if !hasUtils then FlushResult(Threw(NullPointer), [], false)
          else FlushResult(Done, [StartHandshake(seed, Handshake(wallet.value, price, rsa.value[0], rsa.value[1]), key)], true);
        if hs.outcome.Threw? then hs
        else if paid.None? then FlushResult(Threw(NullPointer), hs.sent, hs.handshakeSet)
        else if !paid.value then hs
        else
          var p := PublishStep(seed, items, mode, key, hasUtils);
          FlushResult(p.outcome, hs.sent + p.sent, hs.handshakeSet)
  }

  /** A seed's transport adapter, reduced to what provisioning sets: its node, seed and start
      index. */
  datatype Publisher = Publisher(endpoint: IU.Endpoint, seed: string, start: int)

  // ---------------------------------------------------------------- the listener

  class IotaItemStateChangeListener {
    /** `jsonObjectBySeed`: the batch of each seed; an item without a seed files its entries
        under the null key. */
    var batches: map<Option<string>, seq<ItemEntry>>
    var seedByUID: map<string, string>
    /** The seeds that have a Debouncer. */
    var debouncers: set<string>
    /** The flush each debouncer has scheduled and not yet run. */
    var pending: map<string, Request>
    var utilsBySeed: map<string, Publisher>
    var privateKeyBySeed: map<string, string>
    var paymentReceivedBySeed: map<string, bool>
    var handshakeBySeed: map<string, bool>
    var seedByWallet: map<string, string>
    var paymentAmountByWallet: map<string, real>
    var rsaKeysBySeed: map<string, seq<string>>
    /** The calls made on the transport adapters, in order. */
    var outbox: seq<Publication>

    constructor ()
      ensures batches == map[] && seedByUID == map[] && debouncers == {} && pending == map[]
      ensures utilsBySeed == map[] && privateKeyBySeed == map[] && paymentReceivedBySeed == map[]
      ensures handshakeBySeed == map[] && seedByWallet == map[] && paymentAmountByWallet == map[]
      ensures rsaKeysBySeed == map[] && outbox == []
    {
      batches, seedByUID, debouncers, pending := map[], map[], {}, map[];
      utilsBySeed, privateKeyBySeed, paymentReceivedBySeed := map[], map[], map[];
      handshakeBySeed, seedByWallet, paymentAmountByWallet := map[], map[], map[];
      rsaKeysBySeed, outbox := map[], [];
    }

    /** `stateChanged(item, oldState, newState)`: for every registry entry of the item, the
        item's entry is upserted into its seed's batch (an empty batch for a new seed), the
        entry's mode and price are read, and when the seed has a debouncer the flush is
        (re)scheduled. A missing mode or an unreadable price ends the walk with its exception,
        after the batch has been updated. */
    method StateChanged(item: Item, newState: string, now: string, registry: seq<Metadata>) returns (outcome: Outcome)
      modifies this`batches, this`pending
      ensures var s := Scan(registry, item.name, |registry|);
        var seed := Lookup(seedByUID, item.uid);
        && outcome == (if s.failure.Some? then Threw(s.failure.value) else Done)
        && batches == Absorbed(old(batches), seed, EntryFor(item, newState, now), s)
        && pending == Scheduled(old(pending), seed, debouncers, s)
    {
      outcome, batches, pending := WalkRegistry(item, newState, now, registry, Lookup(seedByUID, item.uid), batches, pending, debouncers);
    }

    /** `stateUpdated(item, state)` republishes: it is `stateChanged(item, state, state)`. */
    method StateUpdated(item: Item, state: string, now: string, registry: seq<Metadata>) returns (outcome: Outcome)
      modifies this`batches, this`pending
      ensures var s := Scan(registry, item.name, |registry|);
        var seed := Lookup(seedByUID, item.uid);
        && outcome == (if s.failure.Some? then Threw(s.failure.value) else Done)
        && batches == Absorbed(old(batches), seed, EntryFor(item, state, now), s)
        && pending == Scheduled(old(pending), seed, debouncers, s)
    {
      outcome := StateChanged(item, state, now, registry);
    }

    /** `removeItemFromJson(item)`: an item with a non-empty seed loses every entry of its name
        from that seed's batch; a seed without a batch is a null dereference; an item without a
        seed is left alone. */
    method RemoveItemFromJson(item: Item) returns (outcome: Outcome)
      modifies this`batches
      ensures var seed := Lookup(seedByUID, item.uid);
        && (seed.None? || seed.value == "" ==> outcome == Done && batches == old(batches))
        && (seed.Some? && seed.value != "" && seed !in old(batches) ==> outcome == Threw(NullPointer) && batches == old(batches))
        && (seed.Some? && seed.value != "" && seed in old(batches) ==>
              outcome == Done && batches == old(batches)[seed := WithoutName(old(batches)[seed], item.name)])
    {
      var seed := Lookup(seedByUID, item.uid);
      if seed.Some? && seed.value != "" {
        if seed !in batches {
          return Threw(NullPointer);
        }
        var kept := DropName(batches[seed], item.name);
        batches := batches[seed := kept];
      }
      return Done;
    }

    /** One publish call on the seed's adapter, as `PublishStep` describes it. */
    method PublishOn(seed: string, mode: string, key: Option<string>) returns (outcome: Outcome)
      modifies this`outbox
      ensures var p := PublishStep(seed, Lookup(batches, Some(seed)), mode, key, seed in utilsBySeed);
        outcome == p.outcome && outbox == old(outbox) + p.sent
    {
      if seed !in utilsBySeed || Some(seed) !in batches {
        return Threw(NullPointer);
      }
      outbox := outbox + [Publish(seed, batches[Some(seed)], mode, key)];
      return Done;
    }

    /** The auto-compensation branch of the flush, for a restricted stream with a price: the
        handshake is sent once while the flag is false and the wallet is non-empty, then the
        batch is published only if the payment has been received. */
    method FlushPriced(seed: string, mode: string, price: real, wallet: Option<string>, key: Option<string>)
      returns (outcome: Outcome)
      requires mode == Restricted && price != 0.0
      modifies this`handshakeBySeed, this`outbox
      ensures var r := FlushPlan(seed, ItemFlush(mode, price, wallet), Lookup(batches, Some(seed)), key,
                                 seed in utilsBySeed, Lookup(old(handshakeBySeed), seed), Lookup(paymentReceivedBySeed, seed),
                                 Lookup(rsaKeysBySeed, seed));
        && outcome == r.outcome && outbox == old(outbox) + r.sent
        && handshakeBySeed == (if r.handshakeSet then old(handshakeBySeed)[seed := true] else old(handshakeBySeed))
    {
      if seed !in handshakeBySeed {
        return Threw(NullPointer);
      }
      if !handshakeBySeed[seed] {
        if wallet.None? {
          return Threw(NullPointer);
        }
        if wallet.value != "" {
          if seed !in rsaKeysBySeed {
            return Threw(NullPointer);
          }
          var rsa := rsaKeysBySeed[seed];
          if |rsa| < 2 {
            return Threw(IndexOutOfBounds);
          }
          if seed !in utilsBySeed {
            return Threw(NullPointer);
          }
          outbox := outbox + [StartHandshake(seed, Handshake(wallet.value, price, rsa[0], rsa[1]), key)];
          handshakeBySeed := handshakeBySeed[seed := true];
        }
      }
      if seed !in paymentReceivedBySeed {
        return Threw(NullPointer);
      }
      outcome := Done;
      if paymentReceivedBySeed[seed] {
        outcome := PublishOn(seed, mode, key);
      }
    }

    /** The seed's debouncer fires: the flush it holds runs, as `FlushPlan` decides, and only
        the seed's own handshake flag can change, from false to true. */
    method Flush(seed: string) returns (outcome: Outcome)
      modifies this`pending, this`handshakeBySeed, this`outbox
      ensures seed !in old(pending) ==>
        outcome == Done && pending == old(pending) && handshakeBySeed == old(handshakeBySeed) && outbox == old(outbox)
      ensures seed in old(pending) ==>
        var r := FlushPlan(seed, old(pending)[seed], Lookup(batches, Some(seed)), Lookup(privateKeyBySeed, seed),
                           seed in utilsBySeed, Lookup(old(handshakeBySeed), seed), Lookup(paymentReceivedBySeed, seed),
                           Lookup(rsaKeysBySeed, seed));
        && pending == RemoveKey(old(pending), seed)
        && outcome == r.outcome && outbox == old(outbox) + r.sent
        && handshakeBySeed == (if r.handshakeSet then old(handshakeBySeed)[seed := true] else old(handshakeBySeed))
    {
      if seed !in pending {
        return Done;
      }
      var req := pending[seed];
      pending := RemoveKey(pending, seed);
      var key := Lookup(privateKeyBySeed, seed);
      match req
      case Release =>
        outcome := PublishOn(seed, Restricted, key);
      case ItemFlush(mode, price, wallet) =>
        if mode != Restricted {
          outcome := PublishOn(seed, mode, None);
        } else if price == 0.0 {
          outcome := PublishOn(seed, mode, key);
        } else {
          outcome := FlushPriced(seed, mode, price, wallet, key);
        }
    }
  }
}
