/** Value types shared by the binding and io bundles: optional values, channel and item
    identities, framework states and Thing statuses, and the string helpers the handlers use
    (ASCII case folding, blankness). */
module Common {

  datatype Option<T> = None | Some(value: T)

  /** A channel's UID; `id` is its last segment (the channel id the framework updates). */
  datatype ChannelUID = ChannelUID(thing: string, id: string)

  /** A framework State as the codecs produce it, kept as its full string form. */
  datatype State = StringType(text: string)

  datatype ThingStatusDetail = CommunicationError | ConfigurationError

  /** Why a Thing went offline: a fixed message, or the message of a caught exception. */
  datatype Reason = Message(text: string) | ExceptionMessage

  datatype ThingStatus =
    | Unknown
    | Online
    | Offline(detail: ThingStatusDetail, reason: Reason)

  /** The exceptions the modelled code can raise and that its callers catch or let through. */
  datatype Failure = NullPointer | IllegalState | IllegalArgument | IndexOutOfBounds | NumberFormat | ClassCast | JsonSyntax

  /** The outcome of a step that may end in a Java exception. */
  datatype Outcome = Done | Threw(failure: Failure)

  /** A command sent to a channel; only RefreshType is acted upon. */
  datatype Command = Refresh | OtherCommand(text: string)

  const CouldNotFetchData: string := "Could not fetch data"

  function UpperChar(c: char): char {
    if 'a' <= c <= 'z' then (c as int - 32) as char else c
  }

  function LowerChar(c: char): char {
    if 'A' <= c <= 'Z' then (c as int + 32) as char else c
  }

  /** `String.toUpperCase` restricted to ASCII letters: every other character is kept, so the
      length never changes. */
  function ToUpper(s: string): (r: string)
    ensures |r| == |s|
    ensures forall i :: 0 <= i < |s| ==> r[i] == UpperChar(s[i])
  {
    seq(|s|, i requires 0 <= i < |s| => UpperChar(s[i]))
  }

  /** `String.toLowerCase` restricted to ASCII letters. */
  function ToLower(s: string): (r: string)
    ensures |r| == |s|
    ensures forall i :: 0 <= i < |s| ==> r[i] == LowerChar(s[i])
  {
    seq(|s|, i requires 0 <= i < |s| => LowerChar(s[i]))
  }

  /** `a.toLowerCase().equals(b.toLowerCase())`. */
  predicate EqualsIgnoreCase(a: string, b: string) {
    ToLower(a) == ToLower(b)
  }

  /** Under the ASCII mapping, lower-casing undoes upper-casing up to case. */
  lemma LowerOfUpper(s: string)
    ensures ToLower(ToUpper(s)) == ToLower(s)
  {
    assert forall i :: 0 <= i < |s| ==> LowerChar(UpperChar(s[i])) == LowerChar(s[i]);
  }

  /** Under the ASCII mapping, upper-casing a string (as the publisher script does) keeps it
      equal ignoring case. */
  lemma UpperKeepsCaseInsensitiveEquality(a: string, b: string)
    ensures EqualsIgnoreCase(ToUpper(a), b) <==> EqualsIgnoreCase(a, b)
  {
    LowerOfUpper(a);
  }

  /** `Character.isWhitespace` under the Unicode 6.2 tables of Java 8: the space separators
      except the non-breaking ones (U+00A0, U+2007, U+202F), the line and paragraph separators,
      the controls U+0009 to U+000D, and the information separators U+001C to U+001F. */
  predicate IsWhitespace(c: char) {
    var n := c as int;
    || n == 0x20 || 0x09 <= n <= 0x0D || 0x1C <= n <= 0x1F
    || n == 0x1680 || n == 0x180E || 0x2000 <= n <= 0x2006 || 0x2008 <= n <= 0x200A
    || n == 0x2028 || n == 0x2029 || n == 0x205F || n == 0x3000
  }

  /** `StringUtils.isNotBlank`: present, and not made of whitespace only. */
  predicate IsNotBlank(s: Option<string>) {
    s.Some? && exists i :: 0 <= i < |s.value| && !IsWhitespace(s.value[i])
  }

  /** `String.indexOf(c)`: the first position of `c`, or None. */
  function IndexOf(s: string, c: char): (r: Option<nat>)
    ensures r.Some? ==> r.value < |s| && s[r.value] == c && c !in s[..r.value]
    ensures r.None? <==> c !in s
  {
    if |s| == 0 then None
    else if s[0] == c then Some(0)
    else match IndexOf(s[1..], c)
      case None => None
      case Some(k) => assert s[1..][..k] == s[1..k + 1]; Some(k + 1)
  }

  /** A map with one key removed. */
  function RemoveKey<K, V>(m: map<K, V>, k: K): (r: map<K, V>)
    ensures r.Keys == m.Keys - {k}
    ensures forall x :: x in r ==> r[x] == m[x]
  {
    map x | x in m && x != k :: m[x]
  }

  /** `HashMap.get`: the value under a key, None for a missing key. */
  function Lookup<K, V>(m: map<K, V>, k: K): (r: Option<V>)
    ensures r.Some? <==> k in m
    ensures r.Some? ==> r.value == m[k]
  {
    if k in m then Some(m[k]) else None
  }
}
