/** The io bundle's wallet Thing: each balance channel watches a wallet address. A refresh job
    reads every address's balance, shows it on the channel, and when a balance has moved by
    exactly the price of a paid stream it recognises the payment, takes the stream's new key
    from the transaction's message, and releases the stream's data. */
module IotaIoThingHandler {
  import opened Common
  import IoCC = IoChannelConfig
  import ISL = ItemStateListener
  import opened ChannelSetup

  const BalanceChannel: string := "balance"
  const DefaultPort: int := 14700
  const DefaultProtocol: string := "http"
  const DefaultHost: string := "localhost"
  /** Balances are shown in Miota: the node's count in iota divided by one million. */
  const Miota: real := 1000000.0
  /** A transaction reports its address without the last 9 characters (the checksum). */
  const ChecksumLength: nat := 9

  /** A channel of the Thing: its UID, its channel type id, and its configured wallet address
      and step. */
  datatype Channel = Channel(uid: ChannelUID, channelType: string, address: Option<string>, step: real)

  /** A transaction found at an address: the address as reported, the value moved and the
      signature message (the RSA-encrypted stream key, in trytes padded with '9'). */
  datatype Transaction = Transaction(address: string, value: int, signatureFragments: string)

  /** The Thing configuration entries `initialize` reads. */
  datatype IoConfiguration = IoConfiguration(refresh: ConfigValue, host: ConfigValue, protocol: ConfigValue, port: ConfigValue)

  predicate UniqueUIDs(channels: seq<Channel>) {
    forall a, b :: 0 <= a < b < |channels| ==> channels[a].uid != channels[b].uid
  }

  // ---------------------------------------------------------------- trailing '9' padding

  /** `j` is the padding the strip loop counts: the run of '9's at the end of `s`, where the
      loop looks at every index down to 1 but never at index 0. */
  predicate IsPadding(s: string, j: nat) {
    && (if |s| == 0 then j == 0 else j <= |s| - 1)
    && (forall k :: |s| - j <= k < |s| ==> s[k] == '9')
    && (|s| - j - 1 >= 1 ==> s[|s| - j - 1] != '9')
  }

  /** The padding, by recursion on the string. */
  function Padding(s: string): (r: nat)
    ensures r <= |s|
  {
    if |s| <= 1 || s[|s| - 1] != '9' then 0 else Padding(s[..|s| - 1]) + 1
  }

  /** The signature with its padding removed, as the code cuts it. */
  function Unpadded(s: string): string
  {
    s[..|s| - Padding(s)]
  }

  lemma {:induction false} PaddingIsPadding(s: string)
    ensures IsPadding(s, Padding(s)) && Padding(s) <= |s|
  {
    if |s| > 1 && s[|s| - 1] == '9' {
      PaddingIsPadding(s[..|s| - 1]);
    }
  }

  /** The counting loop can only stop at `Padding(s)`. */
  lemma {:induction false} PaddingIsOnlyPadding(s: string, j: nat)
    requires IsPadding(s, j)
    ensures j == Padding(s)
  {
    if |s| > 1 && s[|s| - 1] == '9' {
      var s' := s[..|s| - 1];
      assert j >= 1;
      assert IsPadding(s', j - 1) by {
        forall k | |s'| - (j - 1) <= k < |s'|
          ensures s'[k] == '9'
        {
          assert s'[k] == s[k];
        }
      }
      PaddingIsOnlyPadding(s', j - 1);
    }
  }

  /** A signature made only of '9's keeps its first character: the strip never removes index 0. */
  lemma AllNinesKeepFirst(s: string)
    requires |s| >= 1 && forall k :: 0 <= k < |s| ==> s[k] == '9'
    ensures Padding(s) == |s| - 1 && Unpadded(s) == "9"
  {
    PaddingIsOnlyPadding(s, |s| - 1);
  }

  /** A non-'9' at the end is never stripped, and a message ending in a non-'9' character
      followed by '9's loses exactly those '9's. */
  lemma StripsExactlyTheRun(m: string, n: nat)
    requires |m| >= 1 && m[|m| - 1] != '9'
    ensures var s := m + seq(n, _ => '9'); Padding(s) == n && Unpadded(s) == m
  {
    var s := m + seq(n, _ => '9');
    assert s[|m| - 1] == m[|m| - 1];
    assert forall k :: |m| <= k < |s| ==> s[k] == seq(n, _ => '9')[k - |m|];
    PaddingIsOnlyPadding(s, n);
    assert s[..|s| - n] == m;
  }

  /** The loop of `getBalance` that counts the trailing '9's of the signature, from the last
      index down to index 1. */
  method CountPadding(s: string) returns (j: nat)
    ensures IsPadding(s, j)
  {
    j := 0;
    var i := |s| - 1;
    while i > 0
      invariant if |s| == 0 then i == -1 else 0 <= i <= |s| - 1
      invariant j == |s| - 1 - i
      invariant forall k :: i < k < |s| ==> s[k] == '9'
    {
      if s[i] == '9' {
        j := j + 1;
      } else {
        break;
      }
      i := i - 1;
    }
  }

  // ---------------------------------------------------------------- balances

  /** The balance reported for the `k`-th channel: its own answer in Miota, or, when its query
      failed, the previous channel's balance (0 for the first), since `balance` is shared by
      the iterations. */
  function Reported(answers: seq<Option<int>>, k: nat): real
    requires k < |answers|
  {
    match answers[k]
    case Some(n) => n as real / Miota
    case None => if k == 0 then 0.0 else Reported(answers, k - 1)
  }

  /** The reported balance is the last successful answer up to the channel, or 0 when every
      query so far failed. */
  lemma {:induction false} ReportedIsLastAnswer(answers: seq<Option<int>>, k: nat)
    requires k < |answers|
    ensures (forall m :: 0 <= m <= k ==> answers[m].None?) ==> Reported(answers, k) == 0.0
    ensures forall j :: 0 <= j <= k && answers[j].Some? && (forall m :: j < m <= k ==> answers[m].None?) ==>
      Reported(answers, k) == answers[j].value as real / Miota
  {
    if k > 0 && answers[k].None? {
      ReportedIsLastAnswer(answers, k - 1);
    }
  }

  /** The stored balances after the first `n` channels were refreshed. */
  function BalanceMap(b0: map<ChannelUID, real>, channels: seq<Channel>, answers: seq<Option<int>>, n: nat): map<ChannelUID, real>
    requires n <= |channels| == |answers|
  {
    if n == 0 then b0 else BalanceMap(b0, channels, answers, n - 1)[channels[n - 1].uid := Reported(answers, n - 1)]
  }

  /** Every channel's stored balance is overwritten with this tick's reported value, whether or
      not a payment matched, and no other entry changes. */
  lemma {:induction false} BalanceMapStoresReported(b0: map<ChannelUID, real>, channels: seq<Channel>, answers: seq<Option<int>>, n: nat)
    requires n <= |channels| == |answers|
    requires UniqueUIDs(channels)
    ensures var b := BalanceMap(b0, channels, answers, n);
      && (forall k :: 0 <= k < n ==> channels[k].uid in b && b[channels[k].uid] == Reported(answers, k))
      && (forall u :: u in b0 && (forall k :: 0 <= k < n ==> channels[k].uid != u) ==> u in b && b[u] == b0[u])
  {
    if n > 0 {
      BalanceMapStoresReported(b0, channels, answers, n - 1);
    }
  }

  // ---------------------------------------------------------------- payment recognition

  function Abs(x: real): real {
    if x < 0.0 then -x else x
  }

  /** A transaction that pays into the watched address: the reported address matches and the
      value is non-zero. */
  predicate Pays(t: Transaction, add: string) {
    t.address == add && t.value != 0
  }

  /** The position of the first transaction that pays into the address. */
  function FirstPayment(txs: seq<Transaction>, add: string): (r: Option<nat>)
    ensures r.Some? ==> r.value < |txs| && Pays(txs[r.value], add) && forall m :: 0 <= m < r.value ==> !Pays(txs[m], add)
    ensures r.None? ==> forall m :: 0 <= m < |txs| ==> !Pays(txs[m], add)
  {
    if txs == [] then None
    else if Pays(txs[0], add) then Some(0)
    else match FirstPayment(txs[1..], add)
      case None => None
      case Some(i) => Some(i + 1)
  }

  /** The transaction loop of `getBalance`: each transaction's address is compared with the
      watched address cut by its checksum (a null or too short address fails there), and the
      first paying transaction is taken when the balance moved by exactly the wallet's payment
      amount (a missing amount fails on unboxing). At most one transaction is taken. */
  method SeekPayment(txs: seq<Transaction>, address: Option<string>, amounts: map<string, real>, delta: real)
    returns (outcome: Outcome, found: Option<nat>)
    ensures txs == [] ==> outcome == Done && found.None?
    ensures txs != [] && address.None? ==> outcome == Threw(NullPointer) && found.None?
    ensures txs != [] && address.Some? && |address.value| < ChecksumLength ==> outcome == Threw(IndexOutOfBounds) && found.None?
    ensures txs != [] && address.Some? && |address.value| >= ChecksumLength ==>
      var a := address.value;
      var f := FirstPayment(txs, a[..|a| - ChecksumLength]);
      && (f.None? ==> outcome == Done && found.None?)
      && (f.Some? && a !in amounts ==> outcome == Threw(NullPointer) && found.None?)
      && (f.Some? && a in amounts ==> outcome == Done && found == (if Abs(delta) == amounts[a] then f else None))
  {
    var n := 0;
    while n < |txs|
      invariant 0 <= n <= |txs|
      invariant n > 0 ==> address.Some? && |address.value| >= ChecksumLength
      invariant forall m :: 0 <= m < n ==>
        !Pays(txs[m], address.value[..|address.value| - ChecksumLength]) ||
        (address.value in amounts && Abs(delta) != amounts[address.value])
    {
      if address.None? {
        return Threw(NullPointer), None;
      }
      var a := address.value;
      if |a| < ChecksumLength {
        return Threw(IndexOutOfBounds), None;
      }
      var add := a[..|a| - ChecksumLength];
      var t := txs[n];
      if add == t.address && t.value != 0 {
        if a !in amounts {
          return Threw(NullPointer), None;
        }
        if Abs(delta) == amounts[a] {
          return Done, Some(n);
        }
      }
      n := n + 1;
    }
    return Done, None;
  }

  /** The search of `getBalance` for a payment, once the channel's new balance is known: only
      when a previous balance exists, differs, and the address has transactions, the first
      paying transaction is taken if the balance moved by exactly the wallet's payment amount.
      The exceptions are those of `SeekPayment`. */
  function Recognition(previous: Option<real>, reported: real, txs: Option<seq<Transaction>>,
                       address: Option<string>, amounts: map<string, real>): (r: ISL.Read<Option<Transaction>>)
    ensures r.Read? && r.value.Some? ==> address.Some? && |address.value| >= ChecksumLength
  {
    if previous.None? || previous.value == reported || txs.None? || txs.value == [] then ISL.Read(None)
    else if address.None? then ISL.Fails(NullPointer)
    else if |address.value| < ChecksumLength then ISL.Fails(IndexOutOfBounds)
    else
      var a := address.value;
      match FirstPayment(txs.value, a[..|a| - ChecksumLength])
      case None => ISL.Read(None)
      case Some(i) =>
        if a !in amounts then ISL.Fails(NullPointer)
        else if Abs(reported - previous.value) == amounts[a] then ISL.Read(Some(txs.value[i]))
        else ISL.Read(None)
  }

  /** A transaction is taken as the payment exactly when it is the first one paying into the
      watched address (cut by its checksum) and the balance moved by the wallet's amount. */
  lemma RecognitionIsFirstExactPayment(previous: Option<real>, reported: real, txs: Option<seq<Transaction>>,
                                       address: Option<string>, amounts: map<string, real>, t: Transaction)
    ensures Recognition(previous, reported, txs, address, amounts) == ISL.Read(Some(t)) <==>
      && previous.Some? && previous.value != reported && txs.Some?
      && address.Some? && |address.value| >= ChecksumLength
      && var f := FirstPayment(txs.value, address.value[..|address.value| - ChecksumLength]);
      && f.Some? && t == txs.value[f.value]
      && address.value in amounts && Abs(reported - previous.value) == amounts[address.value]
  {
  }

  /** The listener's payment bookkeeping: paid flags, stream keys and scheduled flushes, per seed. */
  datatype Books = Books(paid: map<string, bool>, keys: map<string, string>, pending: map<string, ISL.Request>)

  /** The listener's wallet registrations, which the balance refresh only reads. */
  datatype Wallets = Wallets(seedByWallet: map<string, string>, amounts: map<string, real>, debouncers: set<string>)

  /** Payment flags are never removed and only ever go from false to true. */
  predicate FlagsOnlyRise(a: map<string, bool>, b: map<string, bool>) {
    && (forall s :: s in a ==> s in b && (a[s] ==> b[s]))
    && (forall s :: s in b ==> b[s] || (s in a && a[s] == b[s]))
  }

  /** Stream keys are never removed and only ever replaced by non-empty ones. */
  predicate KeysOnlyRenewed(a: map<string, string>, b: map<string, string>) {
    && (forall s :: s in a ==> s in b)
    && (forall s :: s in b ==> b[s] != "" || (s in a && a[s] == b[s]))
  }

  /** Scheduled flushes are never dropped, and the only new ones are releases of paid data. */
  predicate OnlyReleases(a: map<string, ISL.Request>, b: map<string, ISL.Request>) {
    && (forall s :: s in a ==> s in b)
    && (forall s :: s in b ==> b[s] == ISL.Release || (s in a && a[s] == b[s]))
  }

  predicate Grows(a: Books, b: Books) {
    FlagsOnlyRise(a.paid, b.paid) && KeysOnlyRenewed(a.keys, b.keys) && OnlyReleases(a.pending, b.pending)
  }

  /** The relation composes, so it holds over a whole tick. */
  lemma GrowsComposes(a: Books, b: Books, c: Books)
    requires Grows(a, b) && Grows(b, c)
    ensures Grows(a, c)
  {
  }

  /** What decrypting a payment's message with the stream's RSA key gives: the password; the
      provider's key kept, because the message is empty or the cipher raised one of the
      exceptions the handler catches; or an exception it does not catch (the Base64 decoder
      rejecting the message raises IllegalArgumentException). */
  datatype Decryption = Password(password: string) | KeyKept | Uncaught(failure: Failure)

  /** The decryption of the key carried by a transaction: its signature without padding, read
      as text, decrypted with the stream's RSA key when the text is non-empty. */
  function KeyIn(sd: string, t: Transaction, decode: string -> Option<string>,
                 decrypt: (string, string) -> Decryption): Decryption
  {
    var cipher := decode(Unpadded(t.signatureFragments));
    if cipher.Some? && cipher.value != "" then decrypt(sd, cipher.value) else KeyKept
  }

  /** What a recognised payment does to the books: the key carried by the transaction replaces
      the stream's key when it is non-empty, the stream owning the wallet is marked paid, and
      the release of its data is scheduled on its debouncer. A wallet without a stream, or a
      stream without a debouncer, is a null dereference (the latter after the flag is set); a
      decryption failure the handler does not catch ends the tick before the flag is set. */
  function Receive(b: Books, w: Wallets, address: string, t: Transaction,
                   decode: string -> Option<string>, decrypt: (string, string) -> Decryption): (r: (Outcome, Books))
    ensures Grows(b, r.1)
    ensures address !in w.seedByWallet ==> r == (Threw(NullPointer), b)
    ensures address in w.seedByWallet && KeyIn(w.seedByWallet[address], t, decode, decrypt).Uncaught? ==>
      r == (Threw(KeyIn(w.seedByWallet[address], t, decode, decrypt).failure), b)
    ensures address in w.seedByWallet && !KeyIn(w.seedByWallet[address], t, decode, decrypt).Uncaught? ==>
      var sd := w.seedByWallet[address];
      && r.1.paid == b.paid[sd := true]
      && (r.0.Done? <==> sd in w.debouncers)
      && r.1.pending == (if sd in w.debouncers then b.pending[sd := ISL.Release] else b.pending)
      && (forall s :: s != sd ==> (s in r.1.keys <==> s in b.keys) && (s in b.keys ==> r.1.keys[s] == b.keys[s]))
  {
    if address !in w.seedByWallet then (Threw(NullPointer), b)
    else
      var sd := w.seedByWallet[address];
      var d := KeyIn(sd, t, decode, decrypt);
      if d.Uncaught? then (Threw(d.failure), b)
      else
        var keys := if d.Password? && d.password != "" then b.keys[sd := d.password] else b.keys;
        var paid := b.paid[sd := true];
        if sd in w.debouncers then (Done, Books(paid, keys, b.pending[sd := ISL.Release]))
        else (Threw(NullPointer), Books(paid, keys, b.pending))
  }

  /** The key a payer sends (`m`, padded with '9's) is the one the stream gets. */
  lemma ReceiveStoresTheSentKey(b: Books, w: Wallets, address: string, t: Transaction, m: string, n: nat,
                                decode: string -> Option<string>, decrypt: (string, string) -> Decryption)
    requires address in w.seedByWallet
    requires |m| >= 1 && m[|m| - 1] != '9' && t.signatureFragments == m + seq(n, _ => '9')
    requires decode(m).Some? && decode(m).value != ""
    requires var d := decrypt(w.seedByWallet[address], decode(m).value); d.Password? && d.password != ""
    ensures var sd := w.seedByWallet[address];
      Receive(b, w, address, t, decode, decrypt).1.keys == b.keys[sd := decrypt(sd, decode(m).value).password]
  {
    StripsExactlyTheRun(m, n);
  }

  /** The rest of a channel's refresh once its balance is shown: the payment search, the
      payment's effect on the books, and the stored balance, which is overwritten unless an
      exception ended the tick. */
  function Settle(b: Books, balances: map<ChannelUID, real>, uid: ChannelUID, reported: real,
                  txs: Option<seq<Transaction>>, address: Option<string>, w: Wallets,
                  decode: string -> Option<string>, decrypt: (string, string) -> Decryption)
    : (r: (Outcome, Books, map<ChannelUID, real>))
    ensures Grows(b, r.1)
    ensures r.0.Done? ==> r.2 == balances[uid := reported]
    ensures r.0.Threw? ==> r.2 == balances
    ensures Recognition(Lookup(balances, uid), reported, txs, address, w.amounts) == ISL.Read(None) ==> r.1 == b && r.0 == Done
    ensures forall s :: OwnerOf(address, w) != Some(s) ==> Untouched(b, r.1, s)
  {
    var rec := Recognition(Lookup(balances, uid), reported, txs, address, w.amounts);
    if rec.Fails? then (Threw(rec.failure), b, balances)
    else if rec.value.None? then (Done, b, balances[uid := reported])
    else
      var (o, b') := Receive(b, w, address.value, rec.value.value, decode, decrypt);
      (o, b', if o.Done? then balances[uid := reported] else balances)
  }

  /** The stream owning the watched wallet, if there is one; only its books can change. */
  function OwnerOf(address: Option<string>, w: Wallets): Option<string>
  {
    if address.Some? && address.value in w.seedByWallet then Some(w.seedByWallet[address.value]) else None
  }

  /** The books hold the same entries for the stream before and after. */
  predicate Untouched(a: Books, b: Books, s: string) {
    && (s in a.paid <==> s in b.paid) && (s in a.paid ==> a.paid[s] == b.paid[s])
    && (s in a.keys <==> s in b.keys) && (s in a.keys ==> a.keys[s] == b.keys[s])
    && (s in a.pending <==> s in b.pending) && (s in a.pending ==> a.pending[s] == b.pending[s])
  }

  /** A channel's config as the refresh reads it: whether `processMessage` fails for want of a
      codec (a listener is set and the codec is null), and the watched address. */
  datatype Slot = Slot(codecMissing: bool, address: Option<string>)

  /** The first `n` channels of a `getBalance` tick, each as its config was when the tick
      began (None for a channel without one): how the tick ended, the books and the stored
      balances. */
  function Tick(slots: seq<Option<Slot>>, channels: seq<Channel>, answers: seq<Option<int>>,
                histories: seq<Option<seq<Transaction>>>, b0: Books, bal0: map<ChannelUID, real>, w: Wallets,
                decode: string -> Option<string>, decrypt: (string, string) -> Decryption, n: nat)
    : (Outcome, Books, map<ChannelUID, real>)
    requires n <= |slots| == |channels| == |answers| == |histories|
    decreases n, 1
  {
    if n == 0 then (Done, b0, bal0)
    else TickThrough(slots, channels, answers, histories, b0, bal0, w, decode, decrypt, n - 1)
  }

  /** The tick up to and including channel `k`: a channel without a config, or with its codec
      missing, is a null dereference, and an exception ends the tick. */
  function TickThrough(slots: seq<Option<Slot>>, channels: seq<Channel>, answers: seq<Option<int>>,
                       histories: seq<Option<seq<Transaction>>>, b0: Books, bal0: map<ChannelUID, real>, w: Wallets,
                       decode: string -> Option<string>, decrypt: (string, string) -> Decryption, k: nat)
    : (Outcome, Books, map<ChannelUID, real>)
    requires k < |slots| == |channels| == |answers| == |histories|
    decreases k + 1, 0
  {
    var prev := Tick(slots, channels, answers, histories, b0, bal0, w, decode, decrypt, k);
    if prev.0.Threw? then prev
    else if slots[k].None? || slots[k].value.codecMissing then (Threw(NullPointer), prev.1, prev.2)
    else Settle(prev.1, prev.2, channels[k].uid, Reported(answers, k), histories[k], slots[k].value.address, w, decode, decrypt)
  }

  /** Once a channel has thrown, the later channels do not matter. */
  lemma {:induction false} TickStopsAtFailure(slots: seq<Option<Slot>>, channels: seq<Channel>, answers: seq<Option<int>>,
                                              histories: seq<Option<seq<Transaction>>>, b0: Books, bal0: map<ChannelUID, real>,
                                              w: Wallets, decode: string -> Option<string>,
                                              decrypt: (string, string) -> Decryption, i: nat, n: nat)
    requires i <= n <= |slots| == |channels| == |answers| == |histories|
    requires Tick(slots, channels, answers, histories, b0, bal0, w, decode, decrypt, i).0.Threw?
    ensures Tick(slots, channels, answers, histories, b0, bal0, w, decode, decrypt, n)
         == Tick(slots, channels, answers, histories, b0, bal0, w, decode, decrypt, i)
    decreases n
  {
    if n > i {
      TickStopsAtFailure(slots, channels, answers, histories, b0, bal0, w, decode, decrypt, i, n - 1);
    }
  }

  /** Over a tick, payment flags only rise, keys are only renewed with non-empty ones, and the
      only flushes scheduled are releases. */
  lemma {:induction false} TickGrows(slots: seq<Option<Slot>>, channels: seq<Channel>, answers: seq<Option<int>>,
                                     histories: seq<Option<seq<Transaction>>>, b0: Books, bal0: map<ChannelUID, real>,
                                     w: Wallets, decode: string -> Option<string>,
                                     decrypt: (string, string) -> Decryption, n: nat)
    requires n <= |slots| == |channels| == |answers| == |histories|
    ensures Grows(b0, Tick(slots, channels, answers, histories, b0, bal0, w, decode, decrypt, n).1)
  {
    if n > 0 {
      TickGrows(slots, channels, answers, histories, b0, bal0, w, decode, decrypt, n - 1);
      var prev := Tick(slots, channels, answers, histories, b0, bal0, w, decode, decrypt, n - 1);
      var r := TickThrough(slots, channels, answers, histories, b0, bal0, w, decode, decrypt, n - 1);
      GrowsComposes(b0, prev.1, r.1);
    }
  }

  /** A tick that ends normally has stored, for every channel, the balance reported for it. */
  lemma {:induction false} TickStoresBalances(slots: seq<Option<Slot>>, channels: seq<Channel>, answers: seq<Option<int>>,
                                              histories: seq<Option<seq<Transaction>>>, b0: Books, bal0: map<ChannelUID, real>,
                                              w: Wallets, decode: string -> Option<string>,
                                              decrypt: (string, string) -> Decryption, n: nat)
    requires n <= |slots| == |channels| == |answers| == |histories|
    ensures var r := Tick(slots, channels, answers, histories, b0, bal0, w, decode, decrypt, n);
      r.0.Done? ==> r.2 == BalanceMap(bal0, channels, answers, n)
  {
    if n > 0 {
      TickStoresBalances(slots, channels, answers, histories, b0, bal0, w, decode, decrypt, n - 1);
    }
  }

  /** The streams owning the wallets the first `n` channels watch. */
  function Owners(slots: seq<Option<Slot>>, w: Wallets, n: nat): set<string>
    requires n <= |slots|
  {
    if n == 0 then {}
    else
      var sl := slots[n - 1];
      var owner := if sl.Some? then OwnerOf(sl.value.address, w) else None;
      Owners(slots, w, n - 1) + (if owner.Some? then {owner.value} else {})
  }

  /** A tick marks paid, re-keys and releases only streams that own a watched wallet: every
      other stream's books are as they were. */
  lemma {:induction false} TickTouchesOnlyOwners(slots: seq<Option<Slot>>, channels: seq<Channel>, answers: seq<Option<int>>,
                                                 histories: seq<Option<seq<Transaction>>>, b0: Books, bal0: map<ChannelUID, real>,
                                                 w: Wallets, decode: string -> Option<string>,
                                                 decrypt: (string, string) -> Decryption, n: nat, s: string)
    requires n <= |slots| == |channels| == |answers| == |histories|
    requires s !in Owners(slots, w, n)
    ensures Untouched(b0, Tick(slots, channels, answers, histories, b0, bal0, w, decode, decrypt, n).1, s)
  {
    if n > 0 {
      TickTouchesOnlyOwners(slots, channels, answers, histories, b0, bal0, w, decode, decrypt, n - 1, s);
    }
  }

  /** The config `initialize` builds for a channel: its address and step, a fresh number codec,
      the handler as listener and the channel's UID. */
  ghost predicate Built(c: IoCC.ChannelConfig, ch: Channel, parses: string -> bool)
    reads c
  {
    && c.address == ch.address && c.step == ch.step && c.value == Some(IoCC.Codec(None, parses))
    && c.hasListener && c.channelUID == Some(ch.uid) && c.published == []
  }

  /** The channels `initialize` gives a config to, among the first `n`: those without one yet,
      as long as each is a balance channel; any other channel type ends the loop with an
      IllegalArgumentException. */
  function InstallFrom(channels: seq<Channel>, known: set<ChannelUID>, n: nat): ISL.Read<set<ChannelUID>>
    requires n <= |channels|
  {
    if n == 0 then ISL.Read({})
    else
      var prev := InstallFrom(channels, known, n - 1);
      var ch := channels[n - 1];
      if prev.Fails? || ch.uid in known || ch.uid in prev.value then prev
      else if ch.channelType != BalanceChannel then ISL.Fails(IllegalArgument)
      else ISL.Read(prev.value + {ch.uid})
  }

  /** The loop fails exactly when a channel without a config has another type; otherwise it
      installs exactly the channels without a config. */
  lemma {:induction false} InstallFromCharacterised(channels: seq<Channel>, known: set<ChannelUID>, n: nat)
    requires n <= |channels| && UniqueUIDs(channels)
    ensures var r := InstallFrom(channels, known, n);
      && (r.Fails? <==> exists k :: 0 <= k < n && channels[k].uid !in known && channels[k].channelType != BalanceChannel)
      && (r.Fails? ==> r.failure == IllegalArgument)
      && (r.Read? ==> forall u :: u in r.value <==> exists k :: 0 <= k < n && channels[k].uid == u && u !in known)
  {
    if n > 0 {
      InstallFromCharacterised(channels, known, n - 1);
      var prev := InstallFrom(channels, known, n - 1);
      if prev.Read? {
        assert channels[n - 1].uid !in prev.value;
      }
    }
  }

  /** Once the loop has failed, later channels do not matter. */
  lemma {:induction false} InstallFromFailsOnward(channels: seq<Channel>, known: set<ChannelUID>, i: nat, n: nat)
    requires i <= n <= |channels| && InstallFrom(channels, known, i).Fails?
    ensures InstallFrom(channels, known, n) == InstallFrom(channels, known, i)
    decreases n
  {
    if n > i {
      InstallFromFailsOnward(channels, known, i, n - 1);
    }
  }

  class IotaIoThingHandler {
    var configs: map<ChannelUID, IoCC.ChannelConfig>
    var balances: map<ChannelUID, real>
    var refresh: int
    var port: int
    var protocol: string
    var host: string
    var status: ThingStatus
    /** The refresh job's delay, once one is scheduled. */
    var refreshJob: Option<int>
    var refreshJobCancelled: bool
    /** The `updateState` calls `handleCommand` made, in order. */
    var updates: seq<(string, State)>
    const channels: seq<Channel>
    const listener: ISL.IotaItemStateChangeListener

    /** A Thing's channel UIDs are distinct. */
    constructor (channels: seq<Channel>, listener: ISL.IotaItemStateChangeListener)
      requires UniqueUIDs(channels)
      ensures this.channels == channels && this.listener == listener
      ensures configs == map[] && balances == map[] && refresh == 0
      ensures port == DefaultPort && protocol == DefaultProtocol && host == DefaultHost
      ensures status == Unknown && refreshJob == None && !refreshJobCancelled && updates == []
    {
      this.channels := channels;
      this.listener := listener;
      configs, balances, refresh := map[], map[], 0;
      port, protocol, host := DefaultPort, DefaultProtocol, DefaultHost;
      status, refreshJob, refreshJobCancelled, updates := Unknown, None, false, [];
    }

    /** `handleCommand`: a channel without a config only warns; a refresh re-emits the codec's
        current value when it has one (a missing codec is a null dereference); other commands
        do nothing. */
    method HandleCommand(uid: ChannelUID, command: Command) returns (outcome: Outcome)
      modifies this`updates
      ensures uid !in configs || command.OtherCommand? ==> outcome == Done && updates == old(updates)
      ensures uid in configs && command.Refresh? && configs[uid].value.None? ==>
        outcome == Threw(NullPointer) && updates == old(updates)
      ensures uid in configs && command.Refresh? && configs[uid].value.Some? ==>
        var current := configs[uid].value.value.current;
        && outcome == Done
        && updates == old(updates) + (if current.Some? then [(uid.id, current.value)] else [])
    {
      if uid !in configs {
        return Done;
      }
      var data := configs[uid];
      if command.Refresh? {
        if data.value.None? {
          return Threw(NullPointer);
        }
        var current := data.value.value.current;
        if current.Some? {
          updates := updates + [(uid.id, current.value)];
        }
      }
      return Done;
    }

    /** One iteration of the channel loop of `initialize`. */
    method InstallOne(ch: Channel, parses: string -> bool) returns (outcome: Outcome)
      modifies this`configs
      ensures ch.uid in old(configs) ==> outcome == Done && configs == old(configs)
      ensures ch.uid !in old(configs) && ch.channelType != BalanceChannel ==>
        outcome == Threw(IllegalArgument) && configs == old(configs)
      ensures ch.uid !in old(configs) && ch.channelType == BalanceChannel ==>
        && outcome == Done && ch.uid in configs && configs == old(configs)[ch.uid := configs[ch.uid]]
        && fresh(configs[ch.uid]) && Built(configs[ch.uid], ch, parses)
    {
      if ch.uid in configs {
        return Done;
      }
      if ch.channelType != BalanceChannel {
        return Threw(IllegalArgument);
      }
      var config := new IoCC.ChannelConfig();
      config.address := ch.address;
      config.step := ch.step;
      config.channelUID := Some(ch.uid);
      config.hasListener := true;
      config.value := Some(IoCC.Codec(None, parses));
      configs := configs[ch.uid := config];
      return Done;
    }

    /** The channel loop of `initialize`: every channel without a config gets a fresh one
        built from its configuration, as long as it is a balance channel. */
    method InstallChannels(parses: string -> bool) returns (outcome: Outcome)
      requires UniqueUIDs(channels)
      modifies this`configs
      ensures var r := InstallFrom(channels, old(configs).Keys, |channels|);
        && (outcome.Done? <==> r.Read?)
        && (outcome.Threw? ==> outcome == Threw(IllegalArgument))
        && (r.Read? ==> configs.Keys == old(configs).Keys + r.value)
      ensures old(configs).Keys <= configs.Keys
      ensures forall u :: u in old(configs) ==> configs[u] == old(configs)[u]
      ensures forall k :: 0 <= k < |channels| && channels[k].uid in configs && channels[k].uid !in old(configs) ==>
        fresh(configs[channels[k].uid]) && Built(configs[channels[k].uid], channels[k], parses)
    {
      var i := 0;
      while i < |channels|
        invariant 0 <= i <= |channels|
        invariant InstallFrom(channels, old(configs).Keys, i).Read?
        invariant configs.Keys == old(configs).Keys + InstallFrom(channels, old(configs).Keys, i).value
        invariant forall u :: u in old(configs) ==> configs[u] == old(configs)[u]
        invariant forall k :: 0 <= k < |channels| && channels[k].uid in configs && channels[k].uid !in old(configs) ==>
          k < i && fresh(configs[channels[k].uid]) && Built(configs[channels[k].uid], channels[k], parses)
      {
        outcome := InstallOne(channels[i], parses);
        if outcome.Threw? {
          InstallFromFailsOnward(channels, old(configs).Keys, i + 1, |channels|);
          return;
        }
        i := i + 1;
      }
      return Done;
    }

    /** `initialize()`: the refresh, host, protocol and port are read from the Thing
        configuration (a host or protocol that is not a String fails the cast), the channels
        get their configs, the Thing goes online, and the refresh job starts when the Thing has
        a channel (a delay the scheduler refuses raises IllegalArgumentException). */
    method Initialize(cfg: IoConfiguration, parses: string -> bool) returns (outcome: Outcome)
      requires UniqueUIDs(channels)
      modifies this`refresh, this`host, this`protocol, this`port, this`configs, this`status, this`refreshJob
      ensures refresh == GetOrDefaultInt(cfg.refresh, old(refresh))
      ensures var h := GetOrDefaultText(cfg.host, Some(old(host)));
        var p := GetOrDefaultText(cfg.protocol, Some(old(protocol)));
        && (h.CastFails? ==> outcome == Threw(ClassCast) && host == old(host) && protocol == old(protocol) && port == old(port))
        && (h.Cast? && p.CastFails? ==> outcome == Threw(ClassCast) && host == h.value.value && protocol == old(protocol) && port == old(port))
        && (h.Cast? && p.Cast? ==> host == h.value.value && protocol == p.value.value && port == GetOrDefaultInt(cfg.port, old(port)))
        && (h.CastFails? || p.CastFails? ==> configs == old(configs) && status == old(status) && refreshJob == old(refreshJob))
        && (h.Cast? && p.Cast? ==>
              var r := InstallFrom(channels, old(configs).Keys, |channels|);
              && (r.Fails? ==> outcome == Threw(IllegalArgument) && status == old(status) && refreshJob == old(refreshJob))
              && (r.Read? ==>
                    && configs.Keys == old(configs).Keys + r.value
                    && status == Online
                    && (|channels| == 0 ==> outcome == Done && refreshJob == old(refreshJob))
                    && (|channels| != 0 && ScheduleAccepts(refresh) ==> outcome == Done && refreshJob == Some(refresh))
                    && (|channels| != 0 && !ScheduleAccepts(refresh) ==> outcome == Threw(IllegalArgument) && refreshJob == old(refreshJob))))
      ensures forall u :: u in old(configs) ==> u in configs && configs[u] == old(configs)[u]
      ensures forall k :: 0 <= k < |channels| && channels[k].uid in configs && channels[k].uid !in old(configs) ==>
        fresh(configs[channels[k].uid]) && Built(configs[channels[k].uid], channels[k], parses)
    {
      refresh := GetOrDefaultInt(cfg.refresh, refresh);
      var h := GetOrDefaultText(cfg.host, Some(host));
      if h.CastFails? {
        return Threw(ClassCast);
      }
      host := h.value.value;
      var p := GetOrDefaultText(cfg.protocol, Some(protocol));
      if p.CastFails? {
        return Threw(ClassCast);
      }
      protocol := p.value.value;
      port := GetOrDefaultInt(cfg.port, port);
      outcome := InstallChannels(parses);
      if outcome.Threw? {
        return;
      }
      status := Online;
      if |channels| != 0 {
        if !ScheduleAccepts(refresh) {
          return Threw(IllegalArgument);
        }
        refreshJob := Some(refresh);
      }
    }

    /** `dispose()`: the refresh job is cancelled, every config drops its listener, and the
        configs are forgotten. */
    method Dispose()
      modifies this`configs, this`refreshJobCancelled, set u | u in configs :: configs[u]
      ensures configs == map[]
      ensures refreshJobCancelled == (old(refreshJobCancelled) || refreshJob.Some?)
      ensures forall u :: u in old(configs) ==> !old(configs)[u].hasListener
    {
      if refreshJob.Some? {
        refreshJobCancelled := true;
      }
      var rest := configs.Values;
      while rest != {}
        invariant rest <= old(configs).Values && configs == old(configs)
        invariant refreshJobCancelled == (old(refreshJobCancelled) || refreshJob.Some?)
        invariant forall c :: c in old(configs).Values && c !in rest ==> !c.hasListener
        decreases rest
      {
        var c :| c in rest;
        c.Dispose();
        rest := rest - {c};
      }
      configs := map[];
    }

    /** The listener's payment bookkeeping as a value. */
    function BooksOf(): Books
      reads listener
    {
      Books(listener.paymentReceivedBySeed, listener.privateKeyBySeed, listener.pending)
    }

    function WalletsOf(): Wallets
      reads listener
    {
      Wallets(listener.seedByWallet, listener.paymentAmountByWallet, listener.debouncers)
    }

    /** The payment branch of `getBalance`, for the transaction taken as the payment. */
    method ReceivePayment(address: string, t: Transaction, decode: string -> Option<string>,
                          decrypt: (string, string) -> Decryption) returns (outcome: Outcome)
      modifies listener`privateKeyBySeed, listener`paymentReceivedBySeed, listener`pending
      ensures (outcome, BooksOf()) == Receive(old(BooksOf()), WalletsOf(), address, t, decode, decrypt)
    {
      var seed := Lookup(listener.seedByWallet, address);
      if seed.None? {
        return Threw(NullPointer);
      }
      var sd := seed.value;
      var padded := t.signatureFragments;
      var j := CountPadding(padded);
      PaddingIsOnlyPadding(padded, j);
      var cipher := decode(padded[..|padded| - j]);
      if cipher.Some? && cipher.value != "" {
        var password := decrypt(sd, cipher.value);
        if password.Uncaught? {
          return Threw(password.failure);
        }
        if password.Password? && password.password != "" {
          listener.privateKeyBySeed := listener.privateKeyBySeed[sd := password.password];
        }
      }
      listener.paymentReceivedBySeed := listener.paymentReceivedBySeed[sd := true];
      if sd !in listener.debouncers {
        return Threw(NullPointer);
      }
      listener.pending := listener.pending[sd := ISL.Release];
      return Done;
    }

    /** The part of a channel's refresh after its balance is shown. */
    method SettleBalance(uid: ChannelUID, reported: real, txs: Option<seq<Transaction>>, address: Option<string>,
                         decode: string -> Option<string>, decrypt: (string, string) -> Decryption) returns (outcome: Outcome)
      modifies this`balances, listener`privateKeyBySeed, listener`paymentReceivedBySeed, listener`pending
      ensures (outcome, BooksOf(), balances)
        == Settle(old(BooksOf()), old(balances), uid, reported, txs, address, WalletsOf(), decode, decrypt)
    {
      if uid in balances && balances[uid] != reported && txs.Some? {
        var found;
        outcome, found := SeekPayment(txs.value, address, listener.paymentAmountByWallet, reported - balances[uid]);
        if outcome.Threw? {
          return;
        }
        if found.Some? {
          outcome := ReceivePayment(address.value, txs.value[found.value], decode, decrypt);
          if outcome.Threw? {
            return;
          }
        }
      }
      balances := balances[uid := reported];
      return Done;
    }

    /** The `k`-th channel's config as the refresh reads it, None when it has none. */
    function SlotOf(k: nat): Option<Slot>
      requires k < |channels|
      reads this, configs.Values
    {
      if channels[k].uid !in configs then None
      else
        var c := configs[channels[k].uid];
        Some(Slot(c.hasListener && c.value.None?, c.address))
    }

    /** The configs of the first `n` channels, as the refresh reads them. */
    function SlotsUpTo(n: nat): (r: seq<Option<Slot>>)
      requires n <= |channels|
      reads this, configs.Values
      ensures |r| == n && forall k :: 0 <= k < n ==> r[k] == SlotOf(k)
    {
      if n == 0 then [] else SlotsUpTo(n - 1) + [SlotOf(n - 1)]
    }

    /** One channel of `getBalance`: the balance of the channel's address is queried (a failed
        query keeps the running `balance`), shown on the channel (its codec takes the text and
        the listener gets it; a codec-less channel fails there), and then settled. A channel
        without a config is a null dereference. No other config changes, and what the refresh
        reads from this one stays as it was. */
    method RefreshChannel(k: nat, balance: real, answers: seq<Option<int>>, histories: seq<Option<seq<Transaction>>>,
                          show: real -> string, decode: string -> Option<string>, decrypt: (string, string) -> Decryption)
      returns (outcome: Outcome, reported: real)
      requires k < |channels| == |answers| == |histories|
      modifies this`balances, listener`privateKeyBySeed, listener`paymentReceivedBySeed, listener`pending,
               if channels[k].uid in configs then {configs[channels[k].uid]} else {}
      ensures reported == (if answers[k].Some? then answers[k].value as real / Miota else balance)
      ensures Grows(old(BooksOf()), BooksOf())
      ensures outcome.Done? ==> balances == old(balances)[channels[k].uid := reported]
      ensures outcome.Threw? ==> balances == old(balances)
      ensures channels[k].uid !in configs ==> outcome == Threw(NullPointer) && BooksOf() == old(BooksOf())
      ensures forall j :: 0 <= j < |channels| ==> SlotOf(j) == old(SlotOf(j))
      ensures channels[k].uid in configs ==>
        var c := configs[channels[k].uid];
        var shown := StringType(show(reported));
        && c.address == old(c.address) && c.hasListener == old(c.hasListener) && c.value.None? == old(c.value).None?
        && (old(c.hasListener) && old(c.value).Some? && old(c.value).value.parses(show(reported)) ==>
              c.value == Some(old(c.value).value.(current := Some(shown)))
              && c.published == old(c.published) + [IoCC.Delivery(c.channelUID, shown)])
        && (!(old(c.hasListener) && old(c.value).Some? && old(c.value).value.parses(show(reported))) ==>
              c.value == old(c.value) && c.published == old(c.published))
        && (old(c.hasListener) && old(c.value).None? ==> outcome == Threw(NullPointer) && BooksOf() == old(BooksOf()))
        && (!(old(c.hasListener) && old(c.value).None?) ==>
              (outcome, BooksOf(), balances)
                == Settle(old(BooksOf()), old(balances), channels[k].uid, reported, histories[k], c.address,
                          WalletsOf(), decode, decrypt))
    {
      var uid := channels[k].uid;
      reported := if answers[k].Some? then answers[k].value as real / Miota else balance;
      if uid !in configs {
        return Threw(NullPointer), reported;
      }
      var config := configs[uid];
      outcome := config.ProcessMessage(show(reported));
      if outcome.Threw? {
        return;
      }
      outcome := SettleBalance(uid, reported, histories[k], config.address, decode, decrypt);
    }

    /** One turn of the channel loop of `getBalance` takes the tick one channel further. */
    method RefreshTurn(i: nat, balance: real, answers: seq<Option<int>>, histories: seq<Option<seq<Transaction>>>,
                       show: real -> string, decode: string -> Option<string>, decrypt: (string, string) -> Decryption,
                       ghost slots: seq<Option<Slot>>, ghost b0: Books, ghost bal0: map<ChannelUID, real>, ghost w: Wallets)
      returns (outcome: Outcome, reported: real)
      requires i < |channels| == |answers| == |histories| == |slots|
      requires balance == if i == 0 then 0.0 else Reported(answers, i - 1)
      requires forall k :: 0 <= k < |channels| ==> SlotOf(k) == slots[k]
      requires WalletsOf() == w
      requires (Done, BooksOf(), balances) == Tick(slots, channels, answers, histories, b0, bal0, w, decode, decrypt, i)
      modifies this`balances, listener`privateKeyBySeed, listener`paymentReceivedBySeed, listener`pending, configs.Values
      ensures reported == Reported(answers, i)
      ensures forall k :: 0 <= k < |channels| ==> SlotOf(k) == slots[k]
      ensures WalletsOf() == w
      ensures (outcome, BooksOf(), balances) == Tick(slots, channels, answers, histories, b0, bal0, w, decode, decrypt, i + 1)
    {
      ghost var sl := SlotOf(i);
      outcome, reported := RefreshChannel(i, balance, answers, histories, show, decode, decrypt);
      assert sl == slots[i];
    }

    /** `getBalance()`: every channel is refreshed in order with the running balance, and an
        exception ends the tick; the outcome, the books and the stored balances are those of
        `Tick` over the configs as the tick found them. On success every channel's stored
        balance is the one reported for it, and over the tick the books only grow. */
    method GetBalance(answers: seq<Option<int>>, histories: seq<Option<seq<Transaction>>>, show: real -> string,
                      decode: string -> Option<string>, decrypt: (string, string) -> Decryption) returns (outcome: Outcome)
      requires |channels| == |answers| == |histories|
      modifies this`balances, listener`privateKeyBySeed, listener`paymentReceivedBySeed, listener`pending, configs.Values
      ensures (outcome, BooksOf(), balances)
        == Tick(old(SlotsUpTo(|channels|)), channels, answers, histories, old(BooksOf()), old(balances), WalletsOf(),
                decode, decrypt, |channels|)
      ensures outcome.Done? ==> balances == BalanceMap(old(balances), channels, answers, |channels|)
      ensures Grows(old(BooksOf()), BooksOf())
    {
      ghost var slots, w, b0, bal0 := SlotsUpTo(|channels|), WalletsOf(), BooksOf(), balances;
      var balance := 0.0;
      var i := 0;
      while i < |channels|
        invariant 0 <= i <= |channels|
        invariant balance == if i == 0 then 0.0 else Reported(answers, i - 1)
        invariant WalletsOf() == w
        invariant forall k :: 0 <= k < |channels| ==> SlotOf(k) == slots[k]
        invariant (Done, BooksOf(), balances) == Tick(slots, channels, answers, histories, b0, bal0, w, decode, decrypt, i)
      {
        var o, r := RefreshTurn(i, balance, answers, histories, show, decode, decrypt, slots, b0, bal0, w);
        if o.Threw? {
          TickStopsAtFailure(slots, channels, answers, histories, b0, bal0, w, decode, decrypt, i + 1, |channels|);
          outcome := o;
          break;
        }
        balance := r;
        i := i + 1;
      }
      if i == |channels| {
        outcome := Done;
      }
      TickGrows(slots, channels, answers, histories, b0, bal0, w, decode, decrypt, |channels|);
      TickStoresBalances(slots, channels, answers, histories, b0, bal0, w, decode, decrypt, |channels|);
    }

    /** One run of the refresh job: `getBalance()`, with an exception sending the Thing offline
        with its message. */
    method BalanceTick(answers: seq<Option<int>>, histories: seq<Option<seq<Transaction>>>, show: real -> string,
                       decode: string -> Option<string>, decrypt: (string, string) -> Decryption) returns (outcome: Outcome)
      requires |channels| == |answers| == |histories|
      modifies this`status, this`balances, listener`privateKeyBySeed, listener`paymentReceivedBySeed, listener`pending,
               configs.Values
      ensures (outcome, BooksOf(), balances)
        == Tick(old(SlotsUpTo(|channels|)), channels, answers, histories, old(BooksOf()), old(balances), WalletsOf(),
                decode, decrypt, |channels|)
      ensures outcome.Done? ==> balances == BalanceMap(old(balances), channels, answers, |channels|) && status == old(status)
      ensures outcome.Threw? ==> status == Offline(CommunicationError, ExceptionMessage)
      ensures Grows(old(BooksOf()), BooksOf())
    {
      outcome := GetBalance(answers, histories, show, decode, decrypt);
      if outcome.Threw? {
        status := Offline(CommunicationError, ExceptionMessage);
      }
    }
  }
}
