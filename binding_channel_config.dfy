/** The binding's per-channel configuration and runtime state: the routing settings a channel
    was configured with, its value codec, and the listener that receives decoded states. */
module BindingChannelConfig {
  import opened Common
  import TV = TextValue

  /** Which codec a channel uses. Only the text codec (TextValue) is part of this model; the
      number, percent and on/off codecs are represented by the `parses` oracle of their config. */
  datatype ValueKind = TextKind | NumberKind | PercentKind | OnOffKind

  /** The state a fresh codec holds: `NumberValue` and `PercentValue` start at a zero
      `DecimalType` and `PercentType`, whose full string form is "0"; a `TextValue` starts
      with none. */
  function InitialState(kind: ValueKind): (r: Option<State>)
    ensures r.Some? <==> kind in {NumberKind, PercentKind}
    ensures r.Some? ==> r.value.text == "0"
  {
    if kind == NumberKind || kind == PercentKind then Some(StringType("0")) else None
  }

  /** The raw channel configuration as the framework hands it over; None means "not set". */
  datatype ChannelSettings = ChannelSettings(
    stateTopic: Option<string>,
    transformationPattern: Option<string>,
    min: Option<real>,
    max: Option<real>,
    step: Option<real>,
    isFloat: Option<bool>,
    inverse: Option<bool>,
    on: Option<string>,
    off: Option<string>,
    root: Option<string>,
    key: Option<string>,
    threshold: real,
    ownkey: Option<string>)

  /** The channel types the binding knows, by the id of their channel type UID. */
  datatype ChannelType = TextChannel | NumberChannel | PercentageChannel | OnOffChannel | PaymentChannel | OtherChannel(id: string)

  /** The id of the payment channel. */
  const PaymentChannelId: string := "payment"

  /** A channel of a Thing: its UID, its type, its configuration, and which payloads the codec
      of its type accepts. */
  datatype ChannelSpec = ChannelSpec(uid: ChannelUID, kind: ChannelType, settings: ChannelSettings, parses: string -> bool)

  const DefaultMin: real := 0.0
  const DefaultMax: real := 100.0
  const DefaultStep: real := 1.0

  class ChannelConfig {
    const channelUID: ChannelUID
    const stateTopic: Option<string>
    /** The pattern once `initialize` has removed its "TYPE:" prefix (or as configured when blank). */
    const transformationPattern: Option<string>
    /** The upper-cased "TYPE" part of the configured pattern, when there was one. */
    const transformationServiceName: Option<string>
    const min: real
    const max: real
    const step: real
    const isFloat: bool
    const inverse: bool
    const on: Option<string>
    const off: Option<string>
    /** Payment-channel settings: the MAM root announcing the price, its key, the highest price
        this channel accepts, and the key this subscriber wants the stream re-keyed with. */
    const root: Option<string>
    const key: Option<string>
    const threshold: real
    const ownkey: Option<string>

    const kind: ValueKind
    /** For a non-text codec: whether its `update` accepts the payload (otherwise it raises
        IllegalArgumentException). A text codec accepts every payload. */
    const parses: string -> bool
    /** The text codec holding the channel's current state. */
    const value: TV.TextValue

    /** `channelStateUpdateListener != null`. */
    var hasListener: bool
    /** The states handed to the listener, in order (`channelStateUpdated(channelUID, state)`). */
    var published: seq<State>

    constructor (uid: ChannelUID, s: ChannelSettings, pattern: Option<string>, serviceName: Option<string>,
                 kind: ValueKind, parses: string -> bool, listener: bool)
      ensures channelUID == uid && stateTopic == s.stateTopic
      ensures transformationPattern == pattern && transformationServiceName == serviceName
      ensures min == (if s.min.Some? then s.min.value else DefaultMin)
      ensures max == (if s.max.Some? then s.max.value else DefaultMax)
      ensures step == (if s.step.Some? then s.step.value else DefaultStep)
      ensures isFloat == (s.isFloat.Some? && s.isFloat.value)
      ensures inverse == (s.inverse.Some? && s.inverse.value)
      ensures on == s.on && off == s.off
      ensures root == s.root && key == s.key && threshold == s.threshold && ownkey == s.ownkey
      ensures this.kind == kind && this.parses == parses
      ensures fresh(value) && value.GetValue() == InitialState(kind)
      ensures hasListener == listener && published == []
    {
      channelUID := uid;
      stateTopic := s.stateTopic;
      transformationPattern := pattern;
      transformationServiceName := serviceName;
      min := if s.min.Some? then s.min.value else DefaultMin;
      max := if s.max.Some? then s.max.value else DefaultMax;
      step := if s.step.Some? then s.step.value else DefaultStep;
      isFloat := s.isFloat.Some? && s.isFloat.value;
      inverse := s.inverse.Some? && s.inverse.value;
      on := s.on;
      off := s.off;
      root := s.root;
      key := s.key;
      threshold := s.threshold;
      ownkey := s.ownkey;
      this.kind := kind;
      this.parses := parses;
      if kind == NumberKind || kind == PercentKind {
        value := new TV.TextValue.WithText("0");
      } else {
        value := new TV.TextValue();
      }
      hasListener := listener;
      published := [];
    }

    /** Whether the codec's `update` returns normally for this payload. */
    predicate Accepts(payload: string) {
      kind == TextKind || parses(payload)
    }

    /** `processMessage(payload)`: with a listener, the codec is updated and its result handed to
        the listener; a payload the codec rejects is dropped silently; without a listener
        neither the codec nor any listener is touched. */
    method ProcessMessage(payload: string)
      modifies this`published, value
      ensures hasListener && Accepts(payload) ==>
        value.GetValue() == Some(StringType(payload)) && published == old(published) + [StringType(payload)]
      ensures !(hasListener && Accepts(payload)) ==>
        value.GetValue() == old(value.GetValue()) && published == old(published)
    {
      if hasListener {
        if Accepts(payload) {
          var s := value.Update(payload);
          published := published + [s];
        }
      }
    }

    /** `dispose()`: forget the listener, so that later messages are ignored. */
    method Dispose()
      modifies this`hasListener
      ensures !hasListener
    {
      hasListener := false;
    }
  }

  /** A client of the class: once disposed, a config ignores every message. */
  method DisposedConfigIgnoresMessages(uid: ChannelUID, s: ChannelSettings, payload: string)
    returns (published: seq<State>, v: Option<State>)
    ensures published == [] && v == None
  {
    var c := new ChannelConfig(uid, s, None, None, TextKind, _ => true, true);
    c.Dispose();
    c.ProcessMessage(payload);
    published := c.published;
    v := c.value.GetValue();
  }

  /** A client of the class: a text channel with a listener forwards every payload. */
  method TextConfigForwards(uid: ChannelUID, s: ChannelSettings, p1: string, p2: string)
    returns (published: seq<State>, v: Option<State>)
    ensures published == [StringType(p1), StringType(p2)] && v == Some(StringType(p2))
  {
    var c := new ChannelConfig(uid, s, None, None, TextKind, _ => false, true);
    c.ProcessMessage(p1);
    c.ProcessMessage(p2);
    published := c.published;
    v := c.value.GetValue();
  }
}
