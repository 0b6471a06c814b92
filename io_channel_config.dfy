/** The io bundle's per-channel configuration: the wallet address a balance channel watches,
    its codec and its listener, each settable on its own. */
module IoChannelConfig {
  import opened Common

  /** The channel's number codec (`NumberValue(true, step)`), reduced to the state it last
      produced; `parses` says which payloads its `update` accepts. */
  datatype Codec = Codec(current: Option<State>, parses: string -> bool)

  /** A state handed to the listener together with the channel UID it was sent for. */
  datatype Delivery = Delivery(channelUID: Option<ChannelUID>, state: State)

  class ChannelConfig {
    var address: Option<string>
    var step: real
    /** The codec; None stands for a null `value`. */
    var value: Option<Codec>
    /** `channelStateUpdateListener != null`. */
    var hasListener: bool
    var channelUID: Option<ChannelUID>
    /** The calls made on the listener, in order. */
    var published: seq<Delivery>

    /** The field defaults of a freshly built config: no address, step 1, no codec, no listener. */
    constructor ()
      ensures address == None && step == 1.0 && value == None && !hasListener && channelUID == None
      ensures published == []
    {
      address := None;
      step := 1.0;
      value := None;
      hasListener := false;
      channelUID := None;
      published := [];
    }

    /** `processMessage(payload)`: with a listener, the codec's result is forwarded; a payload the
        codec rejects (IllegalArgumentException) is dropped; a missing codec is a null
        dereference the method does not catch; without a listener nothing happens. */
    method ProcessMessage(payload: string) returns (outcome: Outcome)
      modifies this`value, this`published
      ensures !hasListener ==> outcome == Done && value == old(value) && published == old(published)
      ensures hasListener && old(value).None? ==>
        outcome == Threw(NullPointer) && value == old(value) && published == old(published)
      ensures hasListener && old(value).Some? && !old(value).value.parses(payload) ==>
        outcome == Done && value == old(value) && published == old(published)
      ensures hasListener && old(value).Some? && old(value).value.parses(payload) ==>
        && outcome == Done
        && value == Some(old(value).value.(current := Some(StringType(payload))))
        && published == old(published) + [Delivery(channelUID, StringType(payload))]
    {
      outcome := Done;
      if hasListener {
        if value.None? {
          outcome := Threw(NullPointer);
        } else if value.value.parses(payload) {
          var s := StringType(payload);
          value := Some(value.value.(current := Some(s)));
          published := published + [Delivery(channelUID, s)];
        }
      }
    }

    /** `dispose()`: forget the listener; later messages have no effect. */
    method Dispose()
      modifies this`hasListener
      ensures !hasListener
    {
      hasListener := false;
    }

    method SetAddress(a: Option<string>)
      modifies this`address
      ensures address == a
    {
      address := a;
    }

    method SetChannelUID(uid: Option<ChannelUID>)
      modifies this`channelUID
      ensures channelUID == uid
    {
      channelUID := uid;
    }

    method SetChannelStateUpdateListener(present: bool)
      modifies this`hasListener
      ensures hasListener == present
    {
      hasListener := present;
    }

    method SetValue(v: Option<Codec>)
      modifies this`value
      ensures value == v
    {
      value := v;
    }

    function GetValue(): Option<Codec>
      reads this
    {
      value
    }
  }

  /** A client of the class: each setter changes its own field only, and a disposed config
      forwards nothing. */
  method SettersAreIndependent(a: string, uid: ChannelUID, c: Codec, payload: string)
    returns (addr: Option<string>, id: Option<ChannelUID>, v: Option<Codec>, step: real, sent: seq<Delivery>, o: Outcome)
    ensures addr == Some(a) && id == Some(uid) && v == Some(c) && step == 1.0
    ensures sent == [] && o == Done
  {
    var cfg := new ChannelConfig();
    cfg.SetAddress(Some(a));
    cfg.SetChannelUID(Some(uid));
    cfg.SetValue(Some(c));
    cfg.SetChannelStateUpdateListener(true);
    cfg.Dispose();
    o := cfg.ProcessMessage(payload);
    addr, id, v, step, sent := cfg.address, cfg.channelUID, cfg.GetValue(), cfg.step, cfg.published;
  }
}
