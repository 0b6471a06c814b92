/** The io add-on's IOTA node settings: defaults, and `fill` from the add-on configuration,
    including Java's `Integer.parseInt` for a port given as text. */
module IotaSettings {
  import opened Common

  const DefaultPort: int := 443
  const DefaultProtocol: string := "https"
  const DefaultHost: string := "nodes.testnet.iota.org"

  const Int32Min: int := -0x8000_0000
  const Int32Max: int := 0x7FFF_FFFF

  /** The configured port as the configuration object holds it. */
  datatype PortSetting = IntegerPort(n: int) | StringPort(s: string) | OtherPort | NoPort

  /** `IotaApiConfiguration`: host, protocol and port as configured (None: not configured). */
  datatype ApiConfiguration = ApiConfiguration(host: Option<string>, protocol: Option<string>, port: PortSetting)

  predicate IsDigit(c: char) { '0' <= c <= '9' }

  predicate AllDigits(s: string) { forall i :: 0 <= i < |s| ==> IsDigit(s[i]) }

  /** The value of a string of decimal digits, most significant first. */
  function DigitsValue(s: string): nat
    requires AllDigits(s)
  {
    if |s| == 0 then 0 else DigitsValue(s[..|s| - 1]) * 10 + (s[|s| - 1] as int - '0' as int)
  }

  /** `Integer.parseInt(s)`: an optional '+' or '-' followed by at least one ASCII digit, whose
      value fits in 32 bits; None stands for NumberFormatException. */
  function ParseInt(s: string): (r: Option<int>)
    ensures r.Some? ==> Int32Min <= r.value <= Int32Max
    ensures r.Some? ==> |s| > 0
    ensures |s| > 0 && AllDigits(s) && DigitsValue(s) <= Int32Max ==> r == Some(DigitsValue(s))
  {
    if |s| == 0 then None
    else
      var negative := s[0] == '-';
      var digits := if s[0] == '-' || s[0] == '+' then s[1..] else s;
      if |digits| == 0 || !AllDigits(digits) then None
      else
        var v: int := if negative then -(DigitsValue(digits) as int) else DigitsValue(digits);
        if Int32Min <= v <= Int32Max then Some(v) else None
  }

  function DigitChar(d: nat): char
    requires d < 10
  {
    ('0' as int + d) as char
  }

  /** The decimal digits of a natural number, without leading zeros ("0" for zero). */
  function NatToString(n: nat): (r: string)
    ensures |r| > 0 && AllDigits(r)
    decreases n
  {
    if n < 10 then [DigitChar(n)] else NatToString(n / 10) + [DigitChar(n % 10)]
  }

  /** `Integer.toString(n)`. */
  function IntToString(n: int): string {
    if n < 0 then "-" + NatToString(-n) else NatToString(n)
  }

  lemma {:induction false} NatToStringValue(n: nat)
    ensures DigitsValue(NatToString(n)) == n
    decreases n
  {
    var r := NatToString(n);
    if n >= 10 {
      NatToStringValue(n / 10);
      assert r[..|r| - 1] == NatToString(n / 10);
    }
  }

  /** Parsing the text of a 32-bit integer gives the integer back. */
  lemma ParseIntRoundTrip(n: int)
    requires Int32Min <= n <= Int32Max
    ensures ParseInt(IntToString(n)) == Some(n)
  {
    NatToStringValue(if n < 0 then -n else n);
    if n < 0 {
      assert IntToString(n)[1..] == NatToString(-n);
    }
  }

  /** A port text with anything besides one optional sign and digits is refused. */
  lemma ParseIntRejectsLetters(s: string, i: nat)
    requires 0 < i < |s| && !IsDigit(s[i])
    ensures ParseInt(s) == None
  {
    if |s| > 0 && (s[0] == '-' || s[0] == '+') {
      assert s[1..][i - 1] == s[i];
    }
  }

  class IotaSettings {
    var port: int
    var protocol: string
    var host: string

    /** The default node. */
    constructor ()
      ensures port == DefaultPort && protocol == DefaultProtocol && host == DefaultHost
    {
      port := DefaultPort;
      protocol := DefaultProtocol;
      host := DefaultHost;
    }

    /** `fill(config)`: a configured host or protocol replaces the current one; an Integer port
        is taken as is, a String port is parsed (a non-numeric one raises NumberFormatException
        after host and protocol were already replaced); any other port keeps the current one. */
    method Fill(config: ApiConfiguration) returns (outcome: Outcome)
      modifies this
      ensures host == (if config.host.Some? then config.host.value else old(host))
      ensures protocol == (if config.protocol.Some? then config.protocol.value else old(protocol))
      ensures config.port.IntegerPort? ==> outcome == Done && port == config.port.n
      ensures config.port.StringPort? && ParseInt(config.port.s).Some? ==>
        outcome == Done && port == ParseInt(config.port.s).value
      ensures config.port.StringPort? && ParseInt(config.port.s).None? ==>
        outcome == Threw(NumberFormat) && port == old(port)
      ensures (config.port.OtherPort? || config.port.NoPort?) ==> outcome == Done && port == old(port)
    {
      host := if config.host.Some? then config.host.value else host;
      protocol := if config.protocol.Some? then config.protocol.value else protocol;
      outcome := Done;
      match config.port
      case IntegerPort(n) => port := n;
      case StringPort(s) =>
        match ParseInt(s) {
          case Some(v) => port := v;
          case None => outcome := Threw(NumberFormat);
        }
      case OtherPort =>
      case NoPort =>
    }
  }

  /** A client of the class: a port given as the text of a 32-bit number ends up as that
      number, and an empty configuration keeps the default node. */
  method FillWithTextPort(n: int) returns (port: int, host: string, protocol: string, o: Outcome)
    requires Int32Min <= n <= Int32Max
    ensures port == n && host == DefaultHost && protocol == DefaultProtocol && o == Done
  {
    var settings := new IotaSettings();
    ParseIntRoundTrip(n);
    o := settings.Fill(ApiConfiguration(None, None, StringPort(IntToString(n))));
    port, host, protocol := settings.port, settings.host, settings.protocol;
  }
}
