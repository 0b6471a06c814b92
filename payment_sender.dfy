/** Paying for a price-gated stream, as both binding handlers do it for a payment channel: read
    the stream owner's handshake packet at the channel's root, and if the advertised price is
    within the channel's threshold and no payment was made for the channel yet, send one
    transfer to the owner's wallet, carrying the subscriber's key encrypted with the owner's RSA
    key. The handshake is read with a fresh transport adapter for the public test node. */
module PaymentSender {
  import opened Common
  import opened MamJson
  import IU = IotaUtils
  import BCC = BindingChannelConfig

  /** Payment streams are always read in restricted mode. */
  const PaymentMode: string := "restricted"

  const TestNode: IU.Endpoint := IU.Endpoint("https", "nodes.testnet.iota.org", 443)

  /** The transfer sent: the owner's wallet, the advertised price, and the encrypted key as
      message ("" when the subscriber has no key or encryption failed). */
  datatype Transfer = Transfer(wallet: string, price: real, message: string)

  /** RSA encryption of the subscriber's key with the owner's public key; None when the cipher
      raises one of the exceptions the sender catches. */
  type Encrypter = (string, RsaPublicKey) -> Option<string>

  /** The ledger the payment depends on, from outside the handler. */
  datatype Ledger = Ledger(
    bridgeUtils: bool,       // the bridge handed over its transport adapter
    bridgeHandler: bool,     // the bridge handler is there to provide the paying seed
    transferSucceeds: bool)  // `sendTransfer` returns instead of throwing

  /** One attempt: how it ended, whether the root was missing (the Thing then goes offline with
      "Could not fetch data"), the `nextroot` field afterwards, and the transfer made, if any. */
  datatype Attempt = Attempt(outcome: Outcome, noRoot: bool, nextroot: Option<string>, transfer: Option<Transfer>)

  /** What a payment channel shows: "success" once the transaction is confirmed,
      "processing..." before. */
  const PaymentSuccess: string := "success"
  const PaymentProcessing: string := "processing..."

  /** The refresh interval written into the configuration of the Thing that follows a paid
      stream. */
  const ConfirmedRefresh: int := 60

  predicate HasText(s: Option<string>) {
    s.Some? && |s.value| > 0
  }

  /** `sendPaymentToWallet` as a function of what it reads. */
  function Decide(root: Option<string>, key: Option<string>, threshold: real, ownkey: Option<string>,
                  refresh: int, walletRecorded: bool, nextroot: Option<string>,
                  out: IU.FetchOutput, encrypt: Encrypter, ledger: Ledger): Attempt
  {
    if !HasText(root) then Attempt(Done, true, nextroot, None)
    else if !ledger.bridgeUtils then Attempt(Done, false, nextroot, None)
    else
      var (o, answer) := IU.FetchAnswer(IU.Blank, IU.HasNull(IU.FetchCommand(refresh, IU.Url(TestNode), root, Some(PaymentMode), key)), out);
      if o.Threw? then Attempt(o, false, nextroot, None)
      else if answer.Blank? then Attempt(Done, false, nextroot, None)
      else
        var resp := answer.obj;
        match Get(resp, NextRootKey)
        case None => Attempt(Threw(NullPointer), false, nextroot, None)
        case Some(v) =>
          if !v.JText? then Attempt(Threw(IllegalState), false, nextroot, None)
          else
            var next := Some(v.text);
            if !resp.entries[0].value.JPacket? then Attempt(Threw(IllegalState), false, next, None)
            else
              var packet := resp.entries[0].value.packet;
              if packet.price.None? then Attempt(Threw(NullPointer), false, next, None)
              else if packet.price.value > threshold then Attempt(Done, false, next, None)
              else if packet.wallet.None? then Attempt(Threw(NullPointer), false, next, None)
              else if HasText(ownkey) && packet.rsa.None? then Attempt(Threw(NullPointer), false, next, None)
              else
                var message := if HasText(ownkey) then
                  (match encrypt(ownkey.value, packet.rsa.value) case Some(c) => c case None => "")
                else "";
                if walletRecorded || !ledger.bridgeHandler || !ledger.transferSucceeds then Attempt(Done, false, next, None)
                else Attempt(Done, false, next, Some(Transfer(packet.wallet.value, packet.price.value, message)))
  }

  /** A channel without a root pays nothing and reports that it could not fetch data. */
  lemma NoRootNoPayment(root: Option<string>, key: Option<string>, threshold: real, ownkey: Option<string>,
                        refresh: int, walletRecorded: bool, nextroot: Option<string>,
                        out: IU.FetchOutput, encrypt: Encrypter, ledger: Ledger)
    requires !HasText(root)
    ensures Decide(root, key, threshold, ownkey, refresh, walletRecorded, nextroot, out, encrypt, ledger)
      == Attempt(Done, true, nextroot, None)
  {
  }

  /** A transfer is made only when the handshake packet's price is within the threshold, no
      wallet was recorded for the channel, and the packet's wallet is the one paid. */
  lemma TransferOnlyWithinThreshold(root: Option<string>, key: Option<string>, threshold: real, ownkey: Option<string>,
                                    refresh: int, walletRecorded: bool, nextroot: Option<string>,
                                    out: IU.FetchOutput, encrypt: Encrypter, ledger: Ledger)
    ensures var a := Decide(root, key, threshold, ownkey, refresh, walletRecorded, nextroot, out, encrypt, ledger);
      a.transfer.Some? ==>
        && a.outcome == Done && !walletRecorded && HasText(root) && ledger.transferSucceeds
        && out.Parsed? && |out.obj.entries| > 0 && out.obj.entries[0].value.JPacket?
        && var p := out.obj.entries[0].value.packet;
        && p.price == Some(a.transfer.value.price) && a.transfer.value.price <= threshold
        && p.wallet == Some(a.transfer.value.wallet)
        && a.nextroot.Some? && Get(out.obj, NextRootKey) == Some(JText(a.nextroot.value))
  {
  }

  /** Once a wallet is recorded for the channel, no further transfer is made. */
  lemma RecordedWalletBlocksTransfer(root: Option<string>, key: Option<string>, threshold: real, ownkey: Option<string>,
                                     refresh: int, nextroot: Option<string>,
                                     out: IU.FetchOutput, encrypt: Encrypter, ledger: Ledger)
    ensures Decide(root, key, threshold, ownkey, refresh, true, nextroot, out, encrypt, ledger).transfer == None
  {
  }

  /** Without an own key, the transfer's message is empty; with one, it is the encrypted key
      when encryption succeeds and empty when it fails. */
  lemma TransferMessageIsEncryptedKey(root: Option<string>, key: Option<string>, threshold: real, ownkey: Option<string>,
                                      refresh: int, walletRecorded: bool, nextroot: Option<string>,
                                      out: IU.FetchOutput, encrypt: Encrypter, ledger: Ledger)
    ensures var a := Decide(root, key, threshold, ownkey, refresh, walletRecorded, nextroot, out, encrypt, ledger);
      a.transfer.Some? ==>
        var rsa := out.obj.entries[0].value.packet.rsa;
        a.transfer.value.message ==
          if !HasText(ownkey) then ""
          else if encrypt(ownkey.value, rsa.value).Some? then encrypt(ownkey.value, rsa.value).value
          else ""
  {
  }

  /** A handler's payment bookkeeping as a value: the wallet paid per channel, whether a payment
      was sent per channel, and the next root of the last handshake read. */
  datatype Books = Books(walletByChannel: map<ChannelUID, string>, paymentSent: map<ChannelUID, bool>,
                         nextroot: Option<string>)

  /** The first half of a payment tick: how it ended, the attempt made (None when the flag
      spared it), and the books afterwards. */
  datatype Paid = Paid(outcome: Outcome, attempt: Option<Attempt>, books: Books)

  /** The first half of a payment tick as a function of the books: while the channel's flag is
      false, `sendPaymentToWallet` is decided and the flag rises only with a transfer; a raised
      flag spares the attempt, and a missing flag is the null unboxed. */
  function PayOnceOf(uid: ChannelUID, config: BCC.ChannelConfig, refresh: int, b: Books,
                     out: IU.FetchOutput, encrypt: Encrypter, ledger: Ledger): Paid
  {
    if uid !in b.paymentSent then Paid(Threw(NullPointer), None, b)
    else if b.paymentSent[uid] then Paid(Done, None, b)
    else
      var a := Decide(config.root, config.key, config.threshold, config.ownkey, refresh,
                      uid in b.walletByChannel, b.nextroot, out, encrypt, ledger);
      if a.transfer.Some? then
        Paid(a.outcome, Some(a), Books(b.walletByChannel[uid := a.transfer.value.wallet], b.paymentSent[uid := true], a.nextroot))
      else Paid(a.outcome, Some(a), Books(b.walletByChannel, b.paymentSent, a.nextroot))
  }

  /** Payment flags only rise, and only the channel's own: a flag rises exactly when the attempt
      made a transfer, which records the transfer's wallet for a channel that had none. */
  lemma PayOnceOfOnlyRaises(uid: ChannelUID, config: BCC.ChannelConfig, refresh: int, b: Books,
                            out: IU.FetchOutput, encrypt: Encrypter, ledger: Ledger)
    ensures var r := PayOnceOf(uid, config, refresh, b, out, encrypt, ledger);
      && (forall u :: u in b.paymentSent && b.paymentSent[u] ==> u in r.books.paymentSent && r.books.paymentSent[u])
      && (forall u :: u != uid ==> Lookup(r.books.paymentSent, u) == Lookup(b.paymentSent, u))
      && (forall u :: u != uid ==> Lookup(r.books.walletByChannel, u) == Lookup(b.walletByChannel, u))
      && ((uid in r.books.paymentSent && r.books.paymentSent[uid] && !(uid in b.paymentSent && b.paymentSent[uid]))
            <==> r.attempt.Some? && r.attempt.value.transfer.Some?)
      && (r.attempt.Some? && r.attempt.value.transfer.Some? ==>
            uid !in b.walletByChannel && r.books.walletByChannel[uid] == r.attempt.value.transfer.value.wallet)
  {
  }

  /** What the tangle and the wallet answer one run of the payment job. */
  datatype Run = Run(out: IU.FetchOutput, encrypt: Encrypter, ledger: Ledger)

  /** Whether a run's attempt made a transfer. */
  predicate Transferred(p: Paid)
  {
    p.attempt.Some? && p.attempt.value.transfer.Some?
  }

  /** The first half of the payment job over a sequence of runs, each on the books the one
      before it left: what the last run did and the books after all of them. */
  function PayRuns(uid: ChannelUID, config: BCC.ChannelConfig, refresh: int, b: Books, runs: seq<Run>): Paid
    decreases |runs|, 1
  {
    if |runs| == 0 then Paid(Done, None, b) else PayLastRun(uid, config, refresh, b, runs)
  }

  /** The last of a non-empty sequence of runs, on the books the runs before it left. */
  function PayLastRun(uid: ChannelUID, config: BCC.ChannelConfig, refresh: int, b: Books, runs: seq<Run>): Paid
    requires |runs| > 0
    decreases |runs|, 0
  {
    var prev := PayRuns(uid, config, refresh, b, runs[..|runs| - 1]);
    var run := runs[|runs| - 1];
    PayOnceOf(uid, config, refresh, prev.books, run.out, run.encrypt, run.ledger)
  }

  /** A single run is one `PayOnceOf`. */
  lemma {:induction false} PayOneRun(uid: ChannelUID, config: BCC.ChannelConfig, refresh: int, b: Books, run: Run)
    ensures PayRuns(uid, config, refresh, b, [run]) == PayOnceOf(uid, config, refresh, b, run.out, run.encrypt, run.ledger)
  {
    assert [run][..0] == [];
    assert PayRuns(uid, config, refresh, b, [run]) == PayLastRun(uid, config, refresh, b, [run]);
  }

  /** Once a run has made a transfer, the channel's flag stays raised after every later run. */
  lemma {:induction false} StaysPaid(uid: ChannelUID, config: BCC.ChannelConfig, refresh: int, b: Books,
                                     runs: seq<Run>, i: nat, k: nat)
    requires i < k <= |runs|
    requires Transferred(PayRuns(uid, config, refresh, b, runs[..i + 1]))
    ensures var p := PayRuns(uid, config, refresh, b, runs[..k]);
      uid in p.books.paymentSent && p.books.paymentSent[uid]
    decreases k
  {
    var s := runs[..k];
    assert s[..k - 1] == runs[..k - 1];
    var prev := PayRuns(uid, config, refresh, b, runs[..k - 1]);
    var run := runs[k - 1];
    assert PayRuns(uid, config, refresh, b, s) == PayLastRun(uid, config, refresh, b, s);
    assert PayLastRun(uid, config, refresh, b, s) == PayOnceOf(uid, config, refresh, prev.books, run.out, run.encrypt, run.ledger);
    PayOnceOfOnlyRaises(uid, config, refresh, prev.books, run.out, run.encrypt, run.ledger);
    if k > i + 1 {
      StaysPaid(uid, config, refresh, b, runs, i, k - 1);
    }
  }

  /** Pay once: after a run whose attempt made a transfer, every later run of the channel's job
      makes no attempt and leaves the books as they are, whatever the tangle and the wallet
      answer. */
  lemma {:induction false} PaysAtMostOnce(uid: ChannelUID, config: BCC.ChannelConfig, refresh: int, b: Books,
                                          runs: seq<Run>, i: nat, j: nat)
    requires i < j < |runs|
    requires Transferred(PayRuns(uid, config, refresh, b, runs[..i + 1]))
    ensures PayRuns(uid, config, refresh, b, runs[..j + 1])
            == Paid(Done, None, PayRuns(uid, config, refresh, b, runs[..j]).books)
    ensures !Transferred(PayRuns(uid, config, refresh, b, runs[..j + 1]))
  {
    StaysPaid(uid, config, refresh, b, runs, i, j);
    var s := runs[..j + 1];
    assert s[..j] == runs[..j];
    assert PayRuns(uid, config, refresh, b, s) == PayLastRun(uid, config, refresh, b, s);
  }

  /** The per-handler payment bookkeeping: the wallet paid per channel, whether a payment was
      sent per channel, and the next root of the last handshake read. */
  class PaymentBook {
    var walletByChannel: map<ChannelUID, string>
    var paymentSent: map<ChannelUID, bool>
    var nextroot: Option<string>

    constructor ()
      ensures walletByChannel == map[] && paymentSent == map[] && nextroot == None
    {
      walletByChannel := map[];
      paymentSent := map[];
      nextroot := None;
    }

    function BooksOf(): Books
      reads this
    {
      Books(walletByChannel, paymentSent, nextroot)
    }

    /** `sendPaymentToWallet(channelUID)`: the wallet is recorded only once the transfer has
        gone through, and a recorded wallet blocks any further transfer for the channel. */
    method SendPaymentToWallet(uid: ChannelUID, config: BCC.ChannelConfig, refresh: int,
                               out: IU.FetchOutput, encrypt: Encrypter, ledger: Ledger) returns (a: Attempt)
      modifies this`walletByChannel, this`nextroot
      ensures a == Decide(config.root, config.key, config.threshold, config.ownkey, refresh,
                          uid in old(walletByChannel), old(nextroot), out, encrypt, ledger)
      ensures nextroot == a.nextroot
      ensures walletByChannel == if a.transfer.Some? then old(walletByChannel)[uid := a.transfer.value.wallet]
                                 else old(walletByChannel)
    {
      if !HasText(config.root) {
        return Attempt(Done, true, nextroot, None);
      }
      if !ledger.bridgeUtils {
        return Attempt(Done, false, nextroot, None);
      }
      var mamUtils := new IU.IotaUtils(TestNode);
      var o, answer := mamUtils.FetchFromTangle(refresh, config.root, Some(PaymentMode), config.key, out);
      if o.Threw? {
        return Attempt(o, false, nextroot, None);
      }
      if answer.Blank? {
        // parsing "" yields no object: IllegalStateException, caught
        return Attempt(Done, false, nextroot, None);
      }
      var resp := answer.obj;
      var v := Get(resp, NextRootKey);
      if v.None? {
        return Attempt(Threw(NullPointer), false, nextroot, None);
      }
      if !v.value.JText? {
        return Attempt(Threw(IllegalState), false, nextroot, None);
      }
      nextroot := Some(v.value.text);
      var first := resp.entries[0].value;
      if !first.JPacket? {
        return Attempt(Threw(IllegalState), false, nextroot, None);
      }
      var packet := first.packet;
      if packet.price.None? {
        return Attempt(Threw(NullPointer), false, nextroot, None);
      }
      if packet.price.value > config.threshold {
        return Attempt(Done, false, nextroot, None);
      }
      if packet.wallet.None? {
        return Attempt(Threw(NullPointer), false, nextroot, None);
      }
      var message := "";
      if HasText(config.ownkey) {
        if packet.rsa.None? {
          return Attempt(Threw(NullPointer), false, nextroot, None);
        }
        var encrypted := encrypt(config.ownkey.value, packet.rsa.value);
        if encrypted.Some? {
          message := encrypted.value;
        }
      }
      if uid in walletByChannel || !ledger.bridgeHandler || !ledger.transferSucceeds {
        return Attempt(Done, false, nextroot, None);
      }
      var t := Transfer(packet.wallet.value, packet.price.value, message);
      walletByChannel := walletByChannel[uid := t.wallet];
      a := Attempt(Done, false, nextroot, Some(t));
    }

    /** The first half of a payment tick: `sendPaymentToWallet` runs only while the channel's
        flag is false, and the flag becomes true only when a transfer was made. A channel with
        no flag at all fails on unboxing null. */
    method PayOnce(uid: ChannelUID, config: BCC.ChannelConfig, refresh: int,
                   out: IU.FetchOutput, encrypt: Encrypter, ledger: Ledger) returns (outcome: Outcome, attempt: Option<Attempt>)
      modifies this
      ensures Paid(outcome, attempt, BooksOf()) == PayOnceOf(uid, config, refresh, old(BooksOf()), out, encrypt, ledger)
      ensures uid !in old(paymentSent) ==>
        outcome == Threw(NullPointer) && attempt == None && unchanged(this)
      ensures uid in old(paymentSent) && old(paymentSent)[uid] ==>
        outcome == Done && attempt == None && unchanged(this)
      ensures uid in old(paymentSent) && !old(paymentSent)[uid] ==>
        && attempt == Some(Decide(config.root, config.key, config.threshold, config.ownkey, refresh,
                                  uid in old(walletByChannel), old(nextroot), out, encrypt, ledger))
        && outcome == attempt.value.outcome
        && nextroot == attempt.value.nextroot
        && walletByChannel == (if attempt.value.transfer.Some? then old(walletByChannel)[uid := attempt.value.transfer.value.wallet]
                               else old(walletByChannel))
        && paymentSent == (if attempt.value.transfer.Some? then old(paymentSent)[uid := true] else old(paymentSent))
      ensures forall u :: u in old(paymentSent) && old(paymentSent)[u] ==> u in paymentSent && paymentSent[u]
      ensures uid in paymentSent && paymentSent[uid] && !old(uid in paymentSent && paymentSent[uid]) ==>
        attempt.Some? && attempt.value.transfer.Some? && uid !in old(walletByChannel) && uid in walletByChannel
    {
      attempt := None;
      if uid !in paymentSent {
        return Threw(NullPointer), attempt;
      }
      outcome := Done;
      if !paymentSent[uid] {
        var a := SendPaymentToWallet(uid, config, refresh, out, encrypt, ledger);
        if a.transfer.Some? {
          MarkSent(uid);
        }
        outcome, attempt := a.outcome, Some(a);
      }
    }

    /** `paymentSentByChannelUID.put(uid, false)` when a payment channel is set up. */
    method ExpectPayment(uid: ChannelUID)
      modifies this`paymentSent
      ensures paymentSent == old(paymentSent)[uid := false]
    {
      paymentSent := paymentSent[uid := false];
    }

    method MarkSent(uid: ChannelUID)
      modifies this`paymentSent
      ensures paymentSent == old(paymentSent)[uid := true]
    {
      paymentSent := paymentSent[uid := true];
    }

    /** The channel's entry of the wallet map is removed once its payment is confirmed. */
    method Forget(uid: ChannelUID)
      modifies this`walletByChannel
      ensures walletByChannel == RemoveKey(old(walletByChannel), uid)
    {
      walletByChannel := RemoveKey(walletByChannel, uid);
    }
  }
}
