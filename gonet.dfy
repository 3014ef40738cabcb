/** The parts of Go's runtime and `net` package that the program relies on:
    the `uint32` conversion, `net.IP` with `To4`, `To16` and `String`, and
    `net.SplitHostPort` / `net.JoinHostPort` on plain strings. */
module GoNet {
  import opened Wrappers

  newtype byte = x: int | 0 <= x < 256

  const IPv4Len := 4
  const IPv6Len := 16

  /** Go's `uint32(x)` of a signed `int`: keeps the low 32 bits (two's complement). */
  function Uint32(x: int): (r: nat)
    ensures r < 0x1_0000_0000
    ensures (r - x) % 0x1_0000_0000 == 0
    ensures 0 <= x < 0x1_0000_0000 ==> r == x
  {
    x % 0x1_0000_0000
  }

  /** `net.IP`: a byte slice, 4 bytes for IPv4 and 16 bytes for IPv6, any other length invalid. */
  datatype IP = IP(bytes: seq<byte>)

  /** The ten zero bytes and two 0xff bytes that prefix an IPv4-mapped IPv6 address. */
  const V4InV6Prefix: seq<byte> := [0, 0, 0, 0, 0, 0, 0, 0, 0, 0, 0xff, 0xff]

  predicate IsV4InV6(b: seq<byte>) {
    |b| == IPv6Len && b[..12] == V4InV6Prefix
  }

  /** `ip.To4()`: the 4-byte form of an IPv4 address or of an IPv4-mapped IPv6 address, else nil. */
  function To4(ip: IP): (r: Option<seq<byte>>)
    ensures r.Some? ==> |r.value| == IPv4Len
    ensures r.Some? <==> |ip.bytes| == IPv4Len || IsV4InV6(ip.bytes)
  {
    if |ip.bytes| == IPv4Len then Some(ip.bytes)
    else if IsV4InV6(ip.bytes) then Some(ip.bytes[12..])
    else None
  }

  /** `ip.To16()`: the 16-byte form, mapping a 4-byte address into the IPv4-mapped range, else nil. */
  function To16(ip: IP): (r: Option<seq<byte>>)
    ensures r.Some? ==> |r.value| == IPv6Len
    ensures r.Some? <==> |ip.bytes| == IPv4Len || |ip.bytes| == IPv6Len
  {
    if |ip.bytes| == IPv4Len then Some(V4InV6Prefix + ip.bytes)
    else if |ip.bytes| == IPv6Len then Some(ip.bytes)
    else None
  }

  /** Converting to the 16-byte form and back to the 4-byte form loses nothing. */
  lemma To4OfTo16(ip: IP)
    requires To4(ip).Some?
    ensures To16(ip).Some? && To4(IP(To16(ip).value)) == To4(ip)
  {
    if |ip.bytes| == IPv4Len {
      var b := V4InV6Prefix + ip.bytes;
      assert b[..12] == V4InV6Prefix;
      assert b[12..] == ip.bytes;
    }
  }

  /** The canonical text `ip.String()` produces, up to its rendering: dotted decimal of the
      4-byte form, IPv6 text of a 16-byte address, or the `<nil>` / `?`-hex text of an
      invalid length. Each rendering is injective and the three are mutually distinct
      (dotted text has no ':', IPv6 text always has one, invalid text starts with '<' or '?'),
      so two IPs have the same string exactly when they have the same key. */
  datatype IPKey = Dotted(v4: seq<byte>) | Colons(v6: seq<byte>) | Invalid(raw: seq<byte>)

  /** `ip.String()`, following its branches: empty, has a 4-byte form, not 16 bytes, IPv6. */
  function KeyOf(ip: IP): IPKey {
    if |ip.bytes| == 0 then Invalid([])
    else if To4(ip).Some? then Dotted(To4(ip).value)
    else if |ip.bytes| != IPv6Len then Invalid(ip.bytes)
    else Colons(ip.bytes)
  }

  /** Two IPs denote the same address: equal 4-byte forms, or byte-for-byte equal otherwise. */
  predicate SameAddress(a: IP, b: IP) {
    if To4(a).Some? || To4(b).Some? then To4(a) == To4(b) else a == b
  }

  /** `String` identifies exactly the IPs that denote the same address; in particular a 4-byte
      address and its IPv4-mapped 16-byte form share one key. */
  lemma KeyOfIdentifies(a: IP, b: IP)
    ensures KeyOf(a) == KeyOf(b) <==> SameAddress(a, b)
  {
    if To4(a).None? && To4(b).None? && KeyOf(a) == KeyOf(b) {
      if |a.bytes| == 0 {
        assert |b.bytes| == 0;
        assert a.bytes == b.bytes;
      }
    }
  }

  /** Index of the first `c` in `s`, or -1 (Go's `strings.IndexByte`). */
  function IndexOf(s: string, c: char): (i: int)
    ensures -1 <= i < |s|
    ensures 0 <= i ==> s[i] == c && forall j :: 0 <= j < i ==> s[j] != c
    ensures i < 0 ==> forall j :: 0 <= j < |s| ==> s[j] != c
  {
    if |s| == 0 then -1
    else if s[0] == c then 0
    else var k := IndexOf(s[1..], c); if k < 0 then -1 else k + 1
  }

  /** Index of the last `c` in `s`, or -1 (Go's `strings.LastIndexByte`). */
  function LastIndexOf(s: string, c: char): (i: int)
    ensures -1 <= i < |s|
    ensures 0 <= i ==> s[i] == c && forall j :: i < j < |s| ==> s[j] != c
    ensures i < 0 ==> forall j :: 0 <= j < |s| ==> s[j] != c
  {
    if |s| == 0 then -1
    else if s[|s| - 1] == c then |s| - 1
    else LastIndexOf(s[..|s| - 1], c)
  }

  function AddrError(hostport: string, why: string): string {
    "address " + hostport + ": " + why
  }

  const MissingPort := "missing port in address"
  const TooManyColons := "too many colons in address"

  /** `net.SplitHostPort`: the port follows the last ':'; a host containing ':' must be bracketed,
      and no stray '[' or ']' may remain. */
  function SplitHostPort(hostport: string): Result<(string, string)> {
    var i := LastIndexOf(hostport, ':');
    if i < 0 then Err(AddrError(hostport, MissingPort))
    else if hostport[0] == '[' then
      var end := IndexOf(hostport, ']');
      if end < 0 then Err(AddrError(hostport, "missing ']' in address"))
      else if end + 1 == |hostport| then Err(AddrError(hostport, MissingPort))
      else if end + 1 != i then
        if hostport[end + 1] == ':' then Err(AddrError(hostport, TooManyColons))
        else Err(AddrError(hostport, MissingPort))
      else SplitRest(hostport, hostport[1..end], 1, end + 1, i)
    else
      var host := hostport[..i];
      if IndexOf(host, ':') >= 0 then Err(AddrError(hostport, TooManyColons))
      else SplitRest(hostport, host, 0, 0, i)
  }

  /** The final stray-bracket checks of `SplitHostPort`, once host and colon position are known. */
  function SplitRest(hostport: string, host: string, j: nat, k: nat, i: nat): Result<(string, string)>
    requires j <= |hostport| && k <= |hostport| && i < |hostport|
  {
    if IndexOf(hostport[j..], '[') >= 0 then Err(AddrError(hostport, "unexpected '[' in address"))
    else if IndexOf(hostport[k..], ']') >= 0 then Err(AddrError(hostport, "unexpected ']' in address"))
    else Ok((host, hostport[i + 1..]))
  }

  /** `net.JoinHostPort`: a host containing ':' is taken to be an IPv6 literal and bracketed. */
  function JoinHostPort(host: string, port: string): string {
    if IndexOf(host, ':') >= 0 then "[" + host + "]:" + port else host + ":" + port
  }

  predicate Free(s: string, cs: set<char>) {
    forall j :: 0 <= j < |s| ==> s[j] !in cs
  }

  /** Splitting a joined host and port gives both back, for hosts without brackets and ports
      without ':' or brackets. */
  lemma SplitJoin(host: string, port: string)
    requires Free(host, {'[', ']'}) && Free(port, {':', '[', ']'})
    ensures SplitHostPort(JoinHostPort(host, port)) == Ok((host, port))
  {
    if IndexOf(host, ':') >= 0 {
      SplitJoinBracketed(host, port);
    } else {
      SplitJoinPlain(host, port);
    }
  }

  /** The bracketed case: an IPv6 host comes back from between the brackets. */
  lemma SplitJoinBracketed(host: string, port: string)
    requires Free(host, {'[', ']'}) && Free(port, {':', '[', ']'})
    ensures SplitHostPort("[" + host + "]:" + port) == Ok((host, port))
  {
    var hp := "[" + host + "]:" + port;
    var e := |host| + 1;
    assert hp[e] == ']' && hp[e + 1] == ':';
    LastIndexAfter(hp, e + 1, ':');
    assert forall j :: 0 <= j < e ==> hp[j] != ']' by {
      forall j | 0 <= j < e ensures hp[j] != ']' {
        if j > 0 { assert hp[j] == host[j - 1]; }
      }
    }
    assert IndexOf(hp, ']') == e;
    assert hp[1..e] == host;
    NoneIn(hp[1..], '[');
    NoneIn(hp[e + 1..], ']');
  }

  /** The plain case: the host is everything before the only ':'. */
  lemma SplitJoinPlain(host: string, port: string)
    requires Free(host, {'[', ']', ':'}) && Free(port, {':', '[', ']'})
    ensures SplitHostPort(host + ":" + port) == Ok((host, port))
  {
    var hp := host + ":" + port;
    var i := |host|;
    assert hp[i] == ':';
    LastIndexAfter(hp, i, ':');
    assert hp[..i] == host;
    assert hp[0] != '[' by {
      if |host| > 0 { assert hp[0] == host[0]; } else { assert hp[0] == ':'; }
    }
    NoneIn(hp, '[');
    NoneIn(hp, ']');
  }

  /** A `c` with none after it is the last one. */
  lemma LastIndexAfter(s: string, i: nat, c: char)
    requires i < |s| && s[i] == c && forall j :: i < j < |s| ==> s[j] != c
    ensures LastIndexOf(s, c) == i
  {
  }

  lemma NoneIn(s: string, c: char)
    requires forall j :: 0 <= j < |s| ==> s[j] != c
    ensures IndexOf(s, c) < 0
  {
  }
}
