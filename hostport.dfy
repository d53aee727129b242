/**
 * `_parse_host_port` of `__init__.py`: the `host` field of a service call is
 * `host` or `host:port`, split at its last `:`. When the text after that colon
 * is not a number the whole string is the host and the default port is used.
 */
module HostPort {
  import opened Wrappers
  import opened PyStr

  /** A host and a port, as `_parse_host_port` returns them. */
  datatype Address = Address(host: string, port: int)

  /** `_parse_host_port(s)`, with the integration's default port as a parameter.
      The host is either all of `s` (and then the port is the default), or the
      part of `s` before its last `:`, followed in `s` by that colon and the
      decimal digits of the port. */
  function ParseHostPort(s: string, defaultPort: int): (a: Address)
    ensures a.host == s ==> a.port == defaultPort
    ensures a.host != s ==>
              var k := |a.host|;
              && k < |s| && s[..k] == a.host && s[k] == ':'
              && ':' !in s[k + 1..]
              && IsDecimal(s[k + 1..]) && a.port == DecimalValue(s[k + 1..])
  {
    match LastIndexOf(s, ':')
    case None => Address(s, defaultPort)
    case Some(i) =>
      var port := s[i + 1..];
      assert forall j :: 0 <= j < |port| ==> port[j] == s[i + 1 + j];
      if IsDecimal(port) then Address(s[..i], DecimalValue(port)) else Address(s, defaultPort)
  }

  /** Without a colon the whole string is the host, on the default port. */
  lemma NoColonGivesDefault(s: string, defaultPort: int)
    requires ':' !in s
    ensures ParseHostPort(s, defaultPort) == Address(s, defaultPort)
  {
  }

  /** When the text after the last colon is not a run of digits (it is empty, or it
      holds some other character), the whole string is the host, on the default port. */
  lemma NonNumericSuffixGivesDefault(h: string, suffix: string, defaultPort: int)
    requires ':' !in suffix && !IsDecimal(suffix)
    ensures ParseHostPort(h + ":" + suffix, defaultPort) == Address(h + ":" + suffix, defaultPort)
  {
    var s := h + ":" + suffix;
    assert s[|h|] == ':';
    assert forall j :: |h| < j < |s| ==> s[j] == suffix[j - |h| - 1];
    assert LastIndexOf(s, ':') == Some(|h|);
    assert s[|h| + 1..] == suffix;
  }

  /** When the text after the last colon is a run of digits, the host is what
      comes before that colon and the port is the digits' value. */
  lemma DigitSuffixSplits(h: string, suffix: string, defaultPort: int)
    requires ':' !in suffix && IsDecimal(suffix)
    ensures ParseHostPort(h + ":" + suffix, defaultPort) == Address(h, DecimalValue(suffix))
  {
    var s := h + ":" + suffix;
    assert s[|h|] == ':';
    assert forall j :: |h| < j < |s| ==> s[j] == suffix[j - |h| - 1];
    assert LastIndexOf(s, ':') == Some(|h|);
    assert s[|h| + 1..] == suffix;
    assert s[..|h|] == h;
  }

  /** Formatting a host and a port as `host:port` and parsing it back gives both again,
      even when the host itself holds colons (an IPv6-like `a:b`). */
  lemma RoundTrip(h: string, p: nat, defaultPort: int)
    ensures ParseHostPort(h + ":" + DecimalString(p), defaultPort) == Address(h, p)
  {
    var digits := DecimalString(p);
    assert ':' !in digits by {
      forall j | 0 <= j < |digits| ensures digits[j] != ':' {
        assert IsDigitChar(digits[j]);
      }
    }
    DigitSuffixSplits(h, digits, defaultPort);
    DecimalRoundTrip(p);
  }

  /** Leading zeros in the port are dropped: `"tv:0080"` is port 80. */
  lemma LeadingZerosExample(s: string, defaultPort: int)
    requires s == "tv:0080"
    ensures ParseHostPort(s, defaultPort) == Address("tv", 80)
  {
    EightyText();
    DecimalRoundTrip(80);
    LeadingZeroIgnored("80");
    LeadingZeroIgnored("080");
    assert "0" + "80" == "080" && "0" + "080" == "0080";
    assert IsDecimal("0080");
    assert s == "tv" + ":" + "0080";
    DigitSuffixSplits("tv", "0080", defaultPort);
  }

  /** A numeric result rebuilds the input: host, the colon and the port's digits. */
  lemma SplitRebuilds(s: string, defaultPort: int)
    requires ParseHostPort(s, defaultPort).host != s
    ensures var a := ParseHostPort(s, defaultPort);
            s == a.host + ":" + s[|a.host| + 1..]
  {
    var k := |ParseHostPort(s, defaultPort).host|;
    assert s == s[..k] + [s[k]] + s[k + 1..];
  }

  lemma EightyText()
    ensures DecimalString(80) == "80"
  {
  }

  /** `"a:b:80"` is the host `"a:b"` on port 80. */
  lemma Example(s: string, defaultPort: int)
    requires s == "a:b:80"
    ensures ParseHostPort(s, defaultPort) == Address("a:b", 80)
  {
    EightyText();
    assert s == "a:b" + ":" + DecimalString(80);
    RoundTrip("a:b", 80, defaultPort);
  }
}
