/** dns.go: the `--tsig-algorithm` flag parser, the TSIG fudge window, the first-success rule
    of the resolver query, and the selection of a zone's primary server from its SOA. */
module Dns {
  import opened Wrappers
  import opened GoNet
  import opened DnsLib

  /** The TSIG time window attached to every signed update, in seconds. */
  const TSIG_FUDGE_SECONDS: nat := 300

  /** A TSIG algorithm name as the DNS library spells it. */
  type TSIGAlgorithm = string

  function InvalidAlgorithm(value: string): string {
    "Invalid --tsig-algorithm=" + value
  }

  /** `TSIGAlgorithm.UnmarshalFlag`: the short and "hmac-" spellings of the four algorithms. */
  function UnmarshalFlag(t: TSIGAlgorithm, value: string): (r: Assigned<TSIGAlgorithm>)
    ensures r.err.None? ==> r.receiver in {HmacMD5, HmacSHA1, HmacSHA256, HmacSHA512}
  {
    match value
    case "hmac-md5" | "md5" => Assigned(HmacMD5, None)
    case "hmac-sha1" | "sha1" => Assigned(HmacSHA1, None)
    case "hmac-sha256" | "sha256" => Assigned(HmacSHA256, None)
    case "hmac-sha512" | "sha512" => Assigned(HmacSHA512, None)
    case _ => Assigned(t, Some(InvalidAlgorithm(value)))
  }

  /** The accepted spellings and the library algorithm each one selects. */
  const AlgorithmNames: map<string, TSIGAlgorithm> := map[
    "hmac-md5" := HmacMD5, "md5" := HmacMD5,
    "hmac-sha1" := HmacSHA1, "sha1" := HmacSHA1,
    "hmac-sha256" := HmacSHA256, "sha256" := HmacSHA256,
    "hmac-sha512" := HmacSHA512, "sha512" := HmacSHA512]

  /** The parser accepts exactly the names of the table, and on any other text reports it and
      keeps the previous value. */
  lemma UnmarshalFlagTable(t: TSIGAlgorithm, value: string)
    ensures value in AlgorithmNames ==> UnmarshalFlag(t, value) == Assigned(AlgorithmNames[value], None)
    ensures value !in AlgorithmNames ==> UnmarshalFlag(t, value) == Assigned(t, Some(InvalidAlgorithm(value)))
  {
  }

  /** The library's own dotted algorithm names are not accepted spellings. */
  lemma CanonicalNamesRejected(t: TSIGAlgorithm, value: string)
    requires value in {HmacMD5, HmacSHA1, HmacSHA256, HmacSHA512}
    ensures UnmarshalFlag(t, value) == Assigned(t, Some(InvalidAlgorithm(value)))
  {
  }

  /** The Ns field of the first SOA record of an answer section, skipping other records. */
  function FirstSoa(answer: seq<RR>): (r: Option<string>)
    ensures r.None? <==> forall i :: 0 <= i < |answer| ==> !answer[i].SOA?
    ensures r.Some? ==>
      (exists i :: 0 <= i < |answer| && answer[i].SOA? && answer[i].ns == r.value &&
         forall j :: 0 <= j < i ==> !answer[j].SOA?)
  {
    if |answer| == 0 then None
    else if answer[0].SOA? then Some(answer[0].ns)
    else
      var r := FirstSoa(answer[1..]);
      assert forall j :: 1 <= j < |answer| ==> answer[j] == answer[1..][j - 1];
      r
  }

  /** `discoverZoneServer` after its SOA query: a failed query's error, the first SOA's primary
      server, or "No SOA response". */
  function DiscoverZoneServer(query: Result<Reply>): (r: Result<string>)
    ensures query.Err? ==> r == Err(query.error)
    ensures query.Ok? ==>
      (r == Err("No SOA response") <==> forall i :: 0 <= i < |query.value.answer| ==> !query.value.answer[i].SOA?)
    ensures query.Ok? && r.Ok? ==>
      (exists i :: 0 <= i < |query.value.answer| && query.value.answer[i].SOA? &&
         query.value.answer[i].ns == r.value && forall j :: 0 <= j < i ==> !query.value.answer[j].SOA?)
  {
    match query
    case Err(e) => Err(e)
    case Ok(reply) =>
      match FirstSoa(reply.answer)
      case Some(ns) => Ok(ns)
      case None => Err("No SOA response")
  }

  /** An answer without SOA records gives "No SOA response", whatever else it holds. */
  lemma NoSoaNoServer(reply: Reply)
    requires forall i :: 0 <= i < |reply.answer| ==> !reply.answer[i].SOA?
    ensures DiscoverZoneServer(Ok(reply)) == Err("No SOA response")
  {
  }

  /** The server loop of `query`: each resolver is tried on port 53 in order and the first
      exchange that returns a reply wins, whatever its rcode. */
  function QueryServers(servers: seq<string>, exchange: string -> Exchange): (r: Result<Reply>)
    ensures r.Err? <==> forall i :: 0 <= i < |servers| ==> exchange(JoinHostPort(servers[i], "53")).ExchangeFailed?
    ensures r.Err? ==> r.error == "DNS query failed"
    ensures r.Ok? ==>
      (exists i :: 0 <= i < |servers| &&
         exchange(JoinHostPort(servers[i], "53")) == Exchanged(r.value) &&
         forall j :: 0 <= j < i ==> exchange(JoinHostPort(servers[j], "53")).ExchangeFailed?)
  {
    if |servers| == 0 then Err("DNS query failed")
    else
      match exchange(JoinHostPort(servers[0], "53"))
      case Exchanged(reply) => Ok(reply)
      case ExchangeFailed(_) =>
        var r := QueryServers(servers[1..], exchange);
        assert forall j :: 1 <= j < |servers| ==> servers[j] == servers[1..][j - 1];
        r
  }

  /** `query`: a failure to read the resolver configuration is returned as is; otherwise its
      server list is tried in order. The configuration file read is an input here. */
  function Query(config: Result<seq<string>>, exchange: string -> Exchange): (r: Result<Reply>)
    ensures config.Err? ==> r == Err(config.error)
    ensures config.Ok? ==> (r.Err? <==> r == Err("DNS query failed"))
    ensures config.Ok? && |config.value| > 0 && exchange(JoinHostPort(config.value[0], "53")).Exchanged? ==>
      r == Ok(exchange(JoinHostPort(config.value[0], "53")).reply)
  {
    match config
    case Err(e) => Err(e)
    case Ok(servers) => QueryServers(servers, exchange)
  }
}
