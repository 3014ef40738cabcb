/** The parts of the DNS library the program uses, on unescaped dotted names:
    `dns.Fqdn`, `dns.Split`, the record, class and rcode constants, the TSIG algorithm
    names, and an abstract form of the messages it builds and receives (no wire bytes). */
module DnsLib {
  import opened Wrappers
  import opened GoNet

  /** A name is fully qualified when it ends in a dot (escaped dots are not modelled). */
  predicate IsFqdn(s: string) {
    |s| > 0 && s[|s| - 1] == '.'
  }

  /** `dns.Fqdn`: the name itself when fully qualified, else the name with a dot appended. */
  function Fqdn(s: string): (r: string)
    ensures IsFqdn(r)
    ensures s <= r && |r| <= |s| + 1
  {
    if IsFqdn(s) then s else s + "."
  }

  /** Normalising twice is normalising once, and a qualified name is left alone. */
  lemma FqdnIdempotent(s: string)
    ensures Fqdn(Fqdn(s)) == Fqdn(s)
    ensures IsFqdn(s) ==> Fqdn(s) == s
  {
  }

  /** `dns.Split`: the start offset of every label; none for the root name ".". */
  function Split(s: string): (r: seq<nat>)
    ensures forall k :: 0 <= k < |r| ==> r[k] <= |s|
  {
    if s == "." then [] else [0] + LaterLabels(s, 0)
  }

  /** Offsets just after each dot at a position in [from, |s| - 1): a final dot starts no label. */
  function LaterLabels(s: string, from: nat): (r: seq<nat>)
    ensures forall k :: 0 <= k < |r| ==> from < r[k] < |s|
    decreases |s| - from
  {
    if from + 1 >= |s| then []
    else (if s[from] == '.' then [from + 1] else []) + LaterLabels(s, from + 1)
  }

  /** Position of the first dot in s[from..] that is not the last character, if any. */
  lemma {:induction false} LaterLabelsFirst(s: string, from: nat)
    ensures var r := LaterLabels(s, from);
      (|r| > 0 <==> exists d :: from <= d < |s| - 1 && s[d] == '.') &&
      (|r| > 0 ==> s[r[0] - 1] == '.' && forall d :: from <= d < r[0] - 1 ==> s[d] != '.')
    decreases |s| - from
  {
    if from + 1 < |s| {
      LaterLabelsFirst(s, from + 1);
      var rest := LaterLabels(s, from + 1);
      if s[from] == '.' {
        assert LaterLabels(s, from) == [from + 1] + rest;
      } else {
        assert LaterLabels(s, from) == rest;
      }
    }
  }

  /** The second label of a name starts just after its first dot, provided that dot is not
      the final one; a name with no such dot has a single label. */
  lemma SplitSecondLabel(s: string)
    ensures |Split(s)| > 1 <==> exists d :: 0 <= d < |s| - 1 && s[d] == '.'
    ensures |Split(s)| > 1 ==>
      var k := Split(s)[1]; 0 < k < |s| && s[k - 1] == '.' && forall d :: 0 <= d < k - 1 ==> s[d] != '.'
  {
    if s != "." {
      LaterLabelsFirst(s, 0);
    }
  }

  const TypeA: nat := 1
  const TypeSOA: nat := 6
  const TypeAAAA: nat := 28
  const ClassINET: nat := 1

  const RcodeSuccess: nat := 0

  /** `dns.RcodeToString`; a code missing from the table renders as the empty string. */
  const RcodeToString: map<nat, string> := map[
    0 := "NOERROR", 1 := "FORMERR", 2 := "SERVFAIL", 3 := "NXDOMAIN", 4 := "NOTIMP",
    5 := "REFUSED", 6 := "YXDOMAIN", 7 := "YXRRSET", 8 := "NXRRSET", 9 := "NOTAUTH",
    10 := "NOTZONE", 16 := "BADSIG", 17 := "BADKEY", 18 := "BADTIME", 19 := "BADMODE",
    20 := "BADNAME", 21 := "BADALG", 22 := "BADTRUNC", 23 := "BADCOOKIE"]

  function RcodeName(rcode: nat): string {
    if rcode in RcodeToString then RcodeToString[rcode] else ""
  }

  /** The library's TSIG algorithm names (fully qualified domain names). */
  const HmacMD5 := "hmac-md5.sig-alg.reg.int."
  const HmacSHA1 := "hmac-sha1."
  const HmacSHA256 := "hmac-sha256."
  const HmacSHA512 := "hmac-sha512."

  /** `dns.RR_Header`: owner name, type, class and TTL. */
  datatype Header = Header(name: string, rrtype: nat, rrclass: nat, ttl: nat)

  /** The resource records the program builds or inspects; everything else is `OtherRR`. */
  datatype RR =
    | A(hdr: Header, a: seq<byte>)
    | AAAA(hdr: Header, aaaa: seq<byte>)
    | SOA(hdr: Header, ns: string)
    | OtherRR(hdr: Header)

  /** A TSIG signing request as `Msg.SetTsig` records it: key name, algorithm, fudge, time signed. */
  datatype TsigRequest = TsigRequest(keyName: string, algorithm: string, fudge: nat, timeSigned: int)

  /** A dynamic UPDATE message (RFC 2136): the zone section (section 2.3), the "delete all RRsets
      from a name" directives (section 2.5.3), the "add to an RRset" records (section 2.5.1; a nil
      entry of the slice is a None) and the TSIG requests (RFC 8945 section 4.2). */
  datatype UpdateMsg = UpdateMsg(
    zone: string,
    removeNames: seq<string>,
    insert: seq<Option<RR>>,
    tsig: seq<TsigRequest>)

  /** A reply as far as the program reads it: the response code and the answer section. */
  datatype Reply = Reply(rcode: nat, answer: seq<RR>)

  /** The outcome of one `Client.Exchange`: an error, or a reply. */
  datatype Exchange = ExchangeFailed(cause: string) | Exchanged(reply: Reply)
}
