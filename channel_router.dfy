/** How the binding hands a fetched batch to the Thing's channels: channel by channel, each
    plain channel claims at most one record (the first whose TOPIC matches its state topic, or the
    first one for the "ANY" wildcard) and takes it out of the batch; a channel with a
    transformation pattern is given the whole remaining batch through a transformation service. */
module ChannelRouter {
  import opened Common
  import opened MamJson
  import BCC = BindingChannelConfig

  /** A record the reader can use: both TOPIC and STATE are present (otherwise reading them
      dereferences null). */
  predicate WellFormed(r: Record) {
    r.topic.Some? && r.state.Some?
  }

  const Wildcard: string := "ANY"

  /** A non-empty state topic claims a record whose TOPIC equals it ignoring case, and the
      wildcard (in any case) claims every record. */
  predicate Matches(r: Record, stateTopic: string)
    requires WellFormed(r)
  {
    |stateTopic| > 0 && (EqualsIgnoreCase(r.topic.value, stateTopic) || ToUpper(stateTopic) == Wildcard)
  }

  /** The outcome of one channel's walk over the batch. */
  datatype ScanResult =
    | Claimed(index: nat, payload: string)   // the record at `index` is handed over and removed
    | NoClaim
    | ScanFailed                             // a null TOPIC, STATE or state topic was dereferenced

  /** The walk from position `i`: each record's STATE and TOPIC are read before the state topic is
      consulted, so a malformed record fails the walk even for a channel that would skip it. */
  function ScanFrom(batch: seq<Record>, stateTopic: Option<string>, i: nat): (r: ScanResult)
    requires i <= |batch|
    ensures r.Claimed? ==>
      && stateTopic.Some? && i <= r.index < |batch| && WellFormed(batch[r.index])
      && Matches(batch[r.index], stateTopic.value) && r.payload == batch[r.index].state.value
      && forall j :: i <= j < r.index ==> WellFormed(batch[j]) && !Matches(batch[j], stateTopic.value)
    ensures r.NoClaim? ==>
      forall j :: i <= j < |batch| ==> WellFormed(batch[j]) && stateTopic.Some? && !Matches(batch[j], stateTopic.value)
    ensures r.ScanFailed? ==>
      exists k :: i <= k < |batch| && (!WellFormed(batch[k]) || stateTopic.None?)
        && forall j :: i <= j < k ==> WellFormed(batch[j]) && stateTopic.Some? && !Matches(batch[j], stateTopic.value)
    decreases |batch| - i
  {
    if i == |batch| then NoClaim
    else
      var rec := batch[i];
      if rec.state.None? || rec.topic.None? || stateTopic.None? then ScanFailed
      else if Matches(rec, stateTopic.value) then Claimed(i, rec.state.value)
      else ScanFrom(batch, stateTopic, i + 1)
  }

  function Scan(batch: seq<Record>, stateTopic: Option<string>): ScanResult {
    ScanFrom(batch, stateTopic, 0)
  }

  /** A channel with an empty state topic never claims a record. */
  lemma EmptyTopicClaimsNothing(batch: seq<Record>)
    ensures !Scan(batch, Some("")).Claimed?
  {
  }

  /** The wildcard claims the first record, whatever its topic. */
  lemma WildcardClaimsFirst(batch: seq<Record>, stateTopic: string)
    requires |batch| > 0 && WellFormed(batch[0]) && ToUpper(stateTopic) == Wildcard
    ensures Scan(batch, Some(stateTopic)) == Claimed(0, batch[0].state.value)
  {
    assert |stateTopic| > 0;
  }

  /** A channel claims the first record whose topic matches, and gets its state. */
  lemma TopicClaimsFirstMatch(batch: seq<Record>, stateTopic: string, k: nat)
    requires |stateTopic| > 0 && k < |batch| && WellFormed(batch[k])
    requires EqualsIgnoreCase(batch[k].topic.value, stateTopic)
    requires forall j :: 0 <= j < k ==> WellFormed(batch[j]) && !Matches(batch[j], stateTopic)
    ensures Scan(batch, Some(stateTopic)) == Claimed(k, batch[k].state.value)
  {
  }

  /** What the io bundle publishes is what the binding routes: a channel whose state topic equals
      the item's category (ignoring case) receives the upper-cased state. */
  lemma PublishedEntryReachesItsTopic(e: ItemEntry, stateTopic: string)
    requires e.topic.Some? && |stateTopic| > 0 && EqualsIgnoreCase(e.topic.value, stateTopic)
    ensures Scan([PublishedRecord(e)], Some(stateTopic)) == Claimed(0, ToUpper(e.state))
  {
    UpperKeepsCaseInsensitiveEquality(e.topic.value, stateTopic);
  }

  /** An item published without a category carries no TOPIC, and any plain channel that reads it
      fails. */
  lemma UncategorisedEntryFailsReader(e: ItemEntry, stateTopic: Option<string>)
    requires e.topic.None?
    ensures Scan([PublishedRecord(e)], stateTopic) == ScanFailed
  {
  }

  /** The batch without the record at `i` (`Iterator.remove`). */
  function Remove(batch: seq<Record>, i: nat): (r: seq<Record>)
    requires i < |batch|
    ensures |r| == |batch| - 1
    ensures multiset(r) + multiset{batch[i]} == multiset(batch)
  {
    assert batch == batch[..i] + [batch[i]] + batch[i + 1..];
    batch[..i] + batch[i + 1..]
  }

  /** What a transformation service does with a pattern and the serialised batch. */
  datatype TransformResult =
    | NoService                        // no service of that name
    | TransformFailed                  // TransformationException
    | Transformed(text: Option<string>)

  /** The transformation services, by name (None: the config has no service name). */
  type Transformer = (Option<string>, string, seq<Record>) -> TransformResult

  /** A payload handed to a channel's `processMessage`. */
  datatype Delivery = Delivery(channel: ChannelUID, payload: string)

  /** The routing of a batch: how it ended, the payloads handed over in order, the records taken
      out of the batch in order, and what is left of the batch. */
  datatype RouteResult = RouteResult(outcome: Outcome, deliveries: seq<Delivery>, claimed: seq<Record>, remaining: seq<Record>)

  /** One channel's turn: the walk stops (with the outcome it ends with), or it goes on with
      what the channel was handed, the records it took, and the batch that is left. */
  datatype Step =
    | Stop(outcome: Outcome)
    | Continue(delivery: Option<Delivery>, taken: seq<Record>, next: seq<Record>)

  /** A channel without a config is a null dereference; a missing service or a failed
      transformation ends the walk normally; an empty transformation result is not handed over;
      a plain channel takes the record it claims out of the batch. */
  function StepChannel(uid: ChannelUID, configs: map<ChannelUID, BCC.ChannelConfig>,
                       batch: seq<Record>, transform: Transformer): (r: Step)
    ensures r.Continue? ==> multiset(r.taken) + multiset(r.next) == multiset(batch) && |r.taken| <= 1
    ensures r.Continue? && |r.taken| == 1 ==> r.delivery.Some?
  {
    if uid !in configs then Stop(Threw(NullPointer))
    else
      var c := configs[uid];
      if c.transformationPattern.Some? then
        match transform(c.transformationServiceName, c.transformationPattern.value, batch)
        case NoService => Stop(Done)
        case TransformFailed => Stop(Done)
        case Transformed(s) => Continue(if s.Some? && |s.value| > 0 then Some(Delivery(uid, s.value)) else None, [], batch)
      else
        match Scan(batch, c.stateTopic)
        case ScanFailed => Stop(Threw(NullPointer))
        case NoClaim => Continue(None, [], batch)
        case Claimed(i, p) => Continue(Some(Delivery(uid, p)), [batch[i]], Remove(batch, i))
  }

  function Handed(d: Option<Delivery>): seq<Delivery> {
    if d.Some? then [d.value] else []
  }

  /** The channels' walk over the batch, in channel order. */
  function Route(channels: seq<ChannelUID>, configs: map<ChannelUID, BCC.ChannelConfig>,
                 batch: seq<Record>, transform: Transformer): (r: RouteResult)
    decreases |channels|
  {
    if |channels| == 0 then RouteResult(Done, [], [], batch)
    else
      match StepChannel(channels[0], configs, batch, transform)
      case Stop(o) => RouteResult(o, [], [], batch)
      case Continue(d, taken, next) =>
        var rest := Route(channels[1..], configs, next, transform);
        rest.(deliveries := Handed(d) + rest.deliveries, claimed := taken + rest.claimed)
  }

  /** `updateAllStates(data)`: an empty batch is not routed at all. */
  function RouteBatch(channels: seq<ChannelUID>, configs: map<ChannelUID, BCC.ChannelConfig>,
                      batch: seq<Record>, transform: Transformer): (r: RouteResult)
    ensures |batch| == 0 ==> r == RouteResult(Done, [], [], [])
  {
    if |batch| == 0 then RouteResult(Done, [], [], batch) else Route(channels, configs, batch, transform)
  }

  /** No record is handed to two channels: the records claimed and the records left make up
      the batch exactly, so the batch shrinks by exactly the number of claims, and each claim
      is a delivery to a distinct channel. */
  lemma {:induction false} NoRecordDeliveredTwice(channels: seq<ChannelUID>, configs: map<ChannelUID, BCC.ChannelConfig>,
                                                  batch: seq<Record>, transform: Transformer)
    ensures var r := Route(channels, configs, batch, transform);
      && multiset(r.claimed) + multiset(r.remaining) == multiset(batch)
      && |r.remaining| == |batch| - |r.claimed|
      && |r.claimed| <= |r.deliveries| <= |channels|
    decreases |channels|
  {
    if |channels| > 0 {
      var step := StepChannel(channels[0], configs, batch, transform);
      if step.Continue? {
        NoRecordDeliveredTwice(channels[1..], configs, step.next, transform);
      }
    }
  }

  /** A channel without a config aborts the walk with a null dereference before anything is
      delivered. */
  lemma MissingConfigFails(channels: seq<ChannelUID>, configs: map<ChannelUID, BCC.ChannelConfig>,
                           batch: seq<Record>, transform: Transformer)
    requires |batch| > 0 && |channels| > 0 && channels[0] !in configs
    ensures RouteBatch(channels, configs, batch, transform) == RouteResult(Threw(NullPointer), [], [], batch)
  {
  }

  /** A missing transformation service stops the walk normally: the channels after it get
      nothing and the batch is left as it is. */
  lemma MissingServiceStopsWalk(channels: seq<ChannelUID>, configs: map<ChannelUID, BCC.ChannelConfig>,
                                batch: seq<Record>, transform: Transformer)
    requires |batch| > 0 && |channels| > 0 && channels[0] in configs
    requires configs[channels[0]].transformationPattern.Some?
    requires transform(configs[channels[0]].transformationServiceName,
                       configs[channels[0]].transformationPattern.value, batch) == NoService
    ensures RouteBatch(channels, configs, batch, transform) == RouteResult(Done, [], [], batch)
  {
  }
}
