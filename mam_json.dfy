/** The JSON shapes that travel through a MAM stream: the "Items" array the io bundle publishes,
    the batch of records the binding reads back, the payment (handshake) packet, and the
    response objects of the fetch script. */
module MamJson {
  import opened Common

  /** One entry of the io bundle's "Items" array:
      {"Name": name, "Status": {"Topic": topic (only when the item has a category), "State": state, "Time": time}}. */
  datatype ItemEntry = ItemEntry(name: string, topic: Option<string>, state: string, time: string)

  /** One element of a fetched batch as the binding reads it: {"NAME", "STATUS": {"TOPIC", "STATE"}}.
      A field that is absent is None. */
  datatype Record = Record(name: string, topic: Option<string>, state: Option<string>)

  /** The RSA public key announced in a handshake packet. */
  datatype RsaPublicKey = RsaPublicKey(modulus: string, exponent: string)

  /** The handshake packet a price-gated stream publishes, as the payment side reads it back:
      {"WALLET", "PRICE", "RSA": {"MODULUS", "EXPONENT"}}; an absent field is None. */
  datatype PaymentPacket = PaymentPacket(wallet: Option<string>, price: Option<real>, rsa: Option<RsaPublicKey>)

  /** The values a response entry can hold. */
  datatype JsonValue =
    | JText(text: string)
    | JBatch(records: seq<Record>)
    | JPacket(packet: PaymentPacket)
    | JOther

  datatype Entry = Entry(key: string, value: JsonValue)

  /** A JSON object, its entries in insertion order (the order `entrySet()` iterates). */
  datatype JsonObject = JsonObject(entries: seq<Entry>)

  const NextRootKey: string := "NEXTROOT"

  /** `toString().equals("{}")`. */
  predicate IsEmptyObject(o: JsonObject) {
    |o.entries| == 0
  }

  /** `get(key)`: the value of the first entry with that key. */
  function Get(o: JsonObject, key: string): (r: Option<JsonValue>)
    ensures r.Some? <==> exists i :: 0 <= i < |o.entries| && o.entries[i].key == key
    ensures r.Some? ==> exists i :: 0 <= i < |o.entries| && o.entries[i] == Entry(key, r.value)
    decreases |o.entries|
  {
    if |o.entries| == 0 then None
    else if o.entries[0].key == key then Some(o.entries[0].value)
    else
      var r := Get(JsonObject(o.entries[1..]), key);
      assert forall i :: 0 < i < |o.entries| ==> o.entries[i] == o.entries[1..][i - 1];
      assert forall j :: 0 <= j < |o.entries| - 1 ==> o.entries[1..][j] == o.entries[j + 1];
      r
  }

  /** The record the binding reads back for an entry the io bundle published: the publish
      script upper-cases the whole payload, keys and values alike. */
  function PublishedRecord(e: ItemEntry): (r: Record)
    ensures r.topic.Some? <==> e.topic.Some?
    ensures r.state == Some(ToUpper(e.state))
  {
    Record(ToUpper(e.name), if e.topic.Some? then Some(ToUpper(e.topic.value)) else None, Some(ToUpper(e.state)))
  }

  function PublishedBatch(items: seq<ItemEntry>): (r: seq<Record>)
    ensures |r| == |items|
    ensures forall i :: 0 <= i < |items| ==> r[i] == PublishedRecord(items[i])
  {
    seq(|items|, i requires 0 <= i < |items| => PublishedRecord(items[i]))
  }

  function Quote(s: string): string { "\"" + s + "\"" }

  /** Gson's text for one entry (string escaping is not modelled). */
  function EntryJson(e: ItemEntry): string {
    "{\"Name\":" + Quote(e.name) + ",\"Status\":{"
    + (if e.topic.Some? then "\"Topic\":" + Quote(e.topic.value) + "," else "")
    + "\"State\":" + Quote(e.state) + ",\"Time\":" + Quote(e.time) + "}}"
  }

  function EntriesJson(items: seq<ItemEntry>): string
    decreases |items|
  {
    if |items| == 0 then ""
    else if |items| == 1 then EntryJson(items[0])
    else EntryJson(items[0]) + "," + EntriesJson(items[1..])
  }

  /** `JsonArray.toString()` of the "Items" array: the payload handed to the publish script. */
  function ItemsJson(items: seq<ItemEntry>): string {
    "[" + EntriesJson(items) + "]"
  }
}
