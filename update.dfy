/** update.go: the configuration of a dynamic update (owner name, zone, server, TSIG key) and
    the construction of the RFC 2136 UPDATE message from an address set. */
module Updates {
  import opened Wrappers
  import opened GoNet
  import opened DnsLib
  import opened Dns
  import opened Addr

  /** The parent zone of a fully qualified owner name: the name from its second label on. */
  function DeriveZone(name: string): (r: Result<string>)
    ensures r.Err? ==> r.error == "Missing zone"
    ensures r.Ok? && IsFqdn(name) ==> IsFqdn(r.value) && |r.value| < |name| && name[|name| - |r.value|..] == r.value
  {
    var labels := Split(name);
    if |labels| > 1 then Ok(name[labels[1]..]) else Err("Missing zone")
  }

  /** A parent zone exists exactly when the name has a dot before its last character, and it is
      the part of the name after the first dot. */
  lemma DeriveZoneParent(name: string)
    requires IsFqdn(name)
    ensures DeriveZone(name).Ok? <==> exists d :: 0 <= d < |name| - 1 && name[d] == '.'
    ensures DeriveZone(name).Ok? ==>
      exists d :: 0 <= d < |name| - 1 && name[d] == '.' && (forall e :: 0 <= e < d ==> name[e] != '.') &&
        DeriveZone(name).value == name[d + 1..]
  {
    if name == "." {
      assert Split(name) == [];
    } else {
      SplitSecondLabel(name);
      if |Split(name)| > 1 {
        var k := Split(name)[1];
        assert name[k - 1] == '.';
      }
    }
  }

  /** The zone of a single-label name cannot be guessed. */
  lemma SingleLabelHasNoZone(host: string)
    requires forall i :: 0 <= i < |host| ==> host[i] != '.'
    ensures DeriveZone(host + ".") == Err("Missing zone")
  {
    DeriveZoneParent(host + ".");
    var name := host + ".";
    forall d | 0 <= d < |name| - 1 ensures name[d] != '.' {
      assert name[d] == host[d];
    }
  }

  /** The zone that `Init` records: the given zone made fully qualified, or the derived one. */
  function InitZone(fqdnName: string, zone: string): (r: Result<string>)
    ensures r.Ok? && IsFqdn(fqdnName) ==> IsFqdn(r.value)
  {
    if zone == "" then DeriveZone(fqdnName) else Ok(Fqdn(zone))
  }

  /** An explicit server keeps its port when it has one and gets port 53 otherwise. */
  function ServerAddress(server: string): string {
    if SplitHostPort(server).Ok? then server else JoinHostPort(server, "53")
  }

  /** A server that already splits into host and port is kept verbatim; a server that does not,
      and has no bracket in it, comes back from the joined address with port 53. A bracketed
      server without a port gains a second pair of brackets and still does not split
      (`BracketedServerAsWritten`). */
  lemma ServerAddressHasPort(server: string)
    ensures SplitHostPort(server).Ok? ==> ServerAddress(server) == server
    ensures SplitHostPort(server).Err? && Free(server, {'[', ']'}) ==>
      SplitHostPort(ServerAddress(server)) == Ok((server, "53"))
  {
    if SplitHostPort(server).Err? && Free(server, {'[', ']'}) {
      SplitJoin(server, "53");
    }
  }

  /** The IPv6 loopback written in brackets without a port is joined into "[[::1]]:53", which
      cannot be split again, so the exchange is sent to an address no resolver accepts. */
  lemma BracketedServerAsWritten()
    ensures SplitHostPort("[::1]").Err?
    ensures ServerAddress("[::1]") == "[[::1]]:53"
    ensures SplitHostPort(ServerAddress("[::1]")).Err?
  {
    var hp := "[[::1]]:53";
    assert IndexOf("[::1]", ':') == 1;
    assert SplitHostPort("[::1]").Err? by {
      LastIndexAfter("[::1]", 2, ':');
      assert IndexOf("[::1]", ']') == 4;
    }
    assert ServerAddress("[::1]") == hp;
    LastIndexAfter(hp, 7, ':');
    assert IndexOf(hp, ']') == 5;
  }

  /** The host inside one pair of surrounding brackets, or the whole string when it has none. */
  function Unbracketed(server: string): (r: string)
    ensures |server| >= 2 && server[0] == '[' && server[|server| - 1] == ']' ==>
      server == "[" + r + "]"
    ensures !(|server| >= 2 && server[0] == '[' && server[|server| - 1] == ']') ==> r == server
  {
    if |server| >= 2 && server[0] == '[' && server[|server| - 1] == ']' then server[1..|server| - 1]
    else server
  }

  /** The server address with port 53 defaulted as the flag's HOST[:PORT] form intends: a
      bracketed host has its brackets removed before the port is joined on. */
  function ServerAddressCorrected(server: string): string {
    if SplitHostPort(server).Ok? then server else JoinHostPort(Unbracketed(server), "53")
  }

  /** With the correction, every server without a port, bracketed or not, comes back from the
      joined address as its bare host and port 53; one with a port is kept verbatim. */
  lemma ServerAddressCorrectedHasPort(server: string)
    ensures SplitHostPort(server).Ok? ==> ServerAddressCorrected(server) == server
    ensures SplitHostPort(server).Err? && Free(Unbracketed(server), {'[', ']'}) ==>
      SplitHostPort(ServerAddressCorrected(server)) == Ok((Unbracketed(server), "53"))
  {
    if SplitHostPort(server).Err? && Free(Unbracketed(server), {'[', ']'}) {
      SplitJoin(Unbracketed(server), "53");
    }
  }

  /** The correction changes only bracketed servers without a port. */
  lemma ServerAddressCorrectedAgrees(server: string)
    ensures Free(server, {'[', ']'}) ==> ServerAddressCorrected(server) == ServerAddress(server)
    ensures ServerAddressCorrected("[::1]") == "[::1]:53"
  {
    BracketedServerAsWritten();
    if Free(server, {'[', ']'}) && |server| >= 2 {
      assert server[0] !in {'[', ']'};
    }
    assert IndexOf("::1", ':') == 0;
  }

  /** The server that `Init` records: the zone's discovered primary on port 53 when no server is
      given, else the given server with port 53 defaulted. */
  function InitServer(zone: string, server: string, resolve: string -> Result<Reply>): (r: Result<string>)
    ensures r.Err? ==> r.error == "Failed to discver server" && server == ""
  {
    if server == "" then
      match DiscoverZoneServer(resolve(zone))
      case Err(_) => Err("Failed to discver server")
      case Ok(ns) => Ok(JoinHostPort(ns, "53"))
    else Ok(ServerAddress(server))
  }

  /** `buildAddr`: an A record for an IP with a 4-byte form, else an AAAA record for an IP
      with a 16-byte form, else nil; both at the owner name, class IN and the TTL cut to 32 bits. */
  function BuildAddr(name: string, ttl: int, ip: IP): (r: Option<RR>)
    ensures r.None? <==> |ip.bytes| != IPv4Len && |ip.bytes| != IPv6Len
    ensures r.Some? ==> (r.value.A? <==> To4(ip).Some?) && (r.value.A? || r.value.AAAA?)
    ensures r.Some? ==> r.value.hdr == Header(name, if r.value.A? then TypeA else TypeAAAA, ClassINET, Uint32(ttl))
    ensures r.Some? && r.value.A? ==> |r.value.a| == IPv4Len && SameAddress(IP(r.value.a), ip)
    ensures r.Some? && r.value.AAAA? ==> |r.value.aaaa| == IPv6Len && SameAddress(IP(r.value.aaaa), ip)
  {
    match To4(ip)
    case Some(ip4) => Some(A(Header(name, TypeA, ClassINET, Uint32(ttl)), ip4))
    case None =>
      match To16(ip)
      case Some(ip6) => Some(AAAA(Header(name, TypeAAAA, ClassINET, Uint32(ttl)), ip6))
      case None => None
  }

  /** An IPv4-mapped IPv6 address is published as an A record of its 4-byte form. */
  lemma MappedIsA(name: string, ttl: int, ip4: seq<byte>)
    requires |ip4| == IPv4Len
    ensures BuildAddr(name, ttl, IP(V4InV6Prefix + ip4)) == Some(A(Header(name, TypeA, ClassINET, Uint32(ttl)), ip4))
  {
    var b := V4InV6Prefix + ip4;
    assert b[..12] == V4InV6Prefix && b[12..] == ip4;
  }

  /** The A record for host.example.com. at TTL 60 with the address 10.0.0.5. */
  lemma ExampleRecordA()
    ensures BuildAddr("host.example.com.", 60, IP([10, 0, 0, 5])) ==
      Some(A(Header("host.example.com.", TypeA, ClassINET, 60), [10, 0, 0, 5]))
  {
    assert To4(IP([10, 0, 0, 5])) == Some([10, 0, 0, 5]);
  }

  /** The AAAA record for host.example.com. at TTL 60 with the address 2001:db8::5. */
  lemma ExampleRecordAAAA()
    ensures var v6: seq<byte> := [0x20, 0x01, 0x0d, 0xb8, 0, 0, 0, 0, 0, 0, 0, 0, 0, 0, 0, 5];
      BuildAddr("host.example.com.", 60, IP(v6)) == Some(AAAA(Header("host.example.com.", TypeAAAA, ClassINET, 60), v6))
  {
    var v6: seq<byte> := [0x20, 0x01, 0x0d, 0xb8, 0, 0, 0, 0, 0, 0, 0, 0, 0, 0, 0, 5];
    assert v6[..12] != V4InV6Prefix by { assert v6[0] != V4InV6Prefix[0]; }
    assert To4(IP(v6)) == None;
  }

  /** The zone derived for host.example.com. is example.com. */
  lemma ExampleZone()
    ensures DeriveZone("host.example.com.") == Ok("example.com.")
  {
    var n := "host.example.com.";
    SplitSecondLabel(n);
    assert n[4] == '.';
    assert forall d :: 0 <= d < 4 ==> n[d] != '.';
    assert n[5..] == "example.com.";
  }

  /** `query`'s reading of an exchange: a transport error, a success rcode, or `rcode=<name>`. */
  function Classify(server: string, x: Exchange): (r: Result<Reply>)
    ensures r.Ok? <==> x.Exchanged? && x.reply.rcode == RcodeSuccess
    ensures r.Ok? ==> r.value == x.reply
    ensures x.ExchangeFailed? ==> r.Err? && "dns:Client.Exchange " <= r.error
    ensures x.Exchanged? && x.reply.rcode != RcodeSuccess ==> r.Err? && "rcode=" <= r.error
  {
    match x
    case ExchangeFailed(cause) => Err("dns:Client.Exchange ... " + server + ": " + cause)
    case Exchanged(reply) =>
      if reply.rcode == RcodeSuccess then Ok(reply) else Err("rcode=" + RcodeName(reply.rcode))
  }

  /** A refused update reports its rcode by name; an unnamed rcode reports an empty name. */
  lemma ClassifyRcodeNames(server: string, answer: seq<RR>)
    ensures Classify(server, Exchanged(Reply(5, answer))) == Err("rcode=REFUSED")
    ensures Classify(server, Exchanged(Reply(9, answer))) == Err("rcode=NOTAUTH")
    ensures Classify(server, Exchanged(Reply(12, answer))) == Err("rcode=")
  {
  }

  /** The error `Update` returns for a classified exchange: nil on success. */
  function ErrorOf(r: Result<Reply>): (e: Option<string>)
    ensures e.None? <==> r.Ok?
  {
    if r.Ok? then None else Some(r.error)
  }

  /** A transport to the update server: the message, the server address and the TSIG secrets. */
  type Transport = (UpdateMsg, string, Option<map<string, string>>) -> Exchange

  /** `Update`: the update's configuration; `tsig` is None for Go's nil map. */
  class Update {
    var zone: string
    var name: string
    var ttl: int
    var tsig: Option<map<string, string>>
    var tsigAlgo: TSIGAlgorithm
    var server: string
    var timeout: int

    /** A new update with the given TTL and timeout and every other field at its zero value. */
    constructor (ttl: int, timeout: int)
      ensures this.ttl == ttl && this.timeout == timeout
      ensures zone == "" && name == "" && tsig == None && tsigAlgo == "" && server == ""
    {
      this.ttl := ttl;
      this.timeout := timeout;
      zone, name, tsig, tsigAlgo, server := "", "", None, "", "";
    }

    /** `Init`: store the fully qualified name, then the zone, then the server, stopping at the
        first error with the fields stored so far. `resolve` answers the SOA query for a zone. */
    method Init(name: string, zone: string, server: string, resolve: string -> Result<Reply>)
      returns (err: Option<string>)
      modifies this
      ensures ttl == old(ttl) && tsig == old(tsig) && tsigAlgo == old(tsigAlgo) && timeout == old(timeout)
      ensures name == "" ==>
        err == Some("Missing name") &&
        this.name == old(this.name) && this.zone == old(this.zone) && this.server == old(this.server)
      ensures name != "" ==> this.name == Fqdn(name)
      ensures name != "" && InitZone(Fqdn(name), zone).Err? ==>
        err == Some("Missing zone") && this.zone == old(this.zone) && this.server == old(this.server)
      ensures name != "" && InitZone(Fqdn(name), zone).Ok? ==>
        this.zone == InitZone(Fqdn(name), zone).value &&
        match InitServer(this.zone, server, resolve)
        case Err(e) => err == Some(e) && this.server == old(this.server)
        case Ok(s) => err == None && this.server == s
    {
      if name == "" {
        return Some("Missing name");
      }
      this.name := Fqdn(name);
      if zone == "" {
        var labels := Split(this.name);
        if |labels| > 1 {
          this.zone := this.name[labels[1]..];
        } else {
          return Some("Missing zone");
        }
      } else {
        this.zone := Fqdn(zone);
      }
      if server == "" {
        match DiscoverZoneServer(resolve(this.zone))
        case Err(_) =>
          return Some("Failed to discver server");
        case Ok(ns) =>
          this.server := JoinHostPort(ns, "53");
      } else if SplitHostPort(server).Ok? {
        this.server := server;
      } else {
        this.server := JoinHostPort(server, "53");
      }
      return None;
    }

    /** `InitTSIG`: a key table holding exactly the fully qualified key name, and the algorithm. */
    method InitTSIG(name: string, secret: string, algo: TSIGAlgorithm)
      modifies this
      ensures tsig == Some(map[Fqdn(name) := secret]) && tsigAlgo == algo
      ensures zone == old(zone) && this.name == old(this.name) && ttl == old(ttl)
      ensures server == old(server) && timeout == old(timeout)
    {
      tsig := Some(map[Fqdn(name) := secret]);
      tsigAlgo := algo;
    }

    /** `buildAddrs`: one record (or nil) per entry of the address map, whatever the link state;
        `order` is the map iteration order, each key exactly once. */
    method BuildAddrs(addrs: AddrSet) returns (rs: seq<Option<RR>>, ghost order: seq<IPKey>)
      ensures |rs| == |order| == |addrs.addrs.Keys|
      ensures forall i :: 0 <= i < |order| ==>
        order[i] in addrs.addrs && rs[i] == BuildAddr(name, ttl, addrs.addrs[order[i]])
      ensures forall k :: k in addrs.addrs ==> k in order
      ensures forall i, j :: 0 <= i < j < |order| ==> order[i] != order[j]
      ensures forall k :: k in addrs.addrs ==> BuildAddr(name, ttl, addrs.addrs[k]) in rs
      ensures forall r :: r in rs ==> exists k :: k in addrs.addrs && r == BuildAddr(name, ttl, addrs.addrs[k])
    {
      rs, order := [], [];
      var m := addrs.addrs;
      var rest := m.Keys;
      while rest != {}
        invariant rest <= m.Keys
        invariant |rs| == |order| && |order| + |rest| == |m.Keys|
        invariant forall i :: 0 <= i < |order| ==>
          order[i] in m.Keys - rest && rs[i] == BuildAddr(name, ttl, m[order[i]])
        invariant forall k :: k in m.Keys - rest ==> k in order
        invariant forall i, j :: 0 <= i < j < |order| ==> order[i] != order[j]
        decreases rest
      {
        var k :| k in rest;
        rs, order := rs + [BuildAddr(name, ttl, m[k])], order + [k];
        rest := rest - {k};
      }
      forall r | r in rs ensures exists k :: k in m && r == BuildAddr(name, ttl, m[k]) {
        var i :| 0 <= i < |rs| && rs[i] == r;
        assert order[i] in m;
      }
    }

    /** `buildMsg`: the zone section, one delete-all-RRsets directive for the owner name, the
        address records, and one TSIG request per key of a non-nil key table, signed at `now`
        with the stored algorithm and a 300-second fudge. */
    method BuildMsg(addrs: AddrSet, now: int) returns (msg: UpdateMsg, ghost order: seq<IPKey>)
      ensures msg.zone == zone && msg.removeNames == [name]
      ensures |msg.insert| == |order| == |addrs.addrs.Keys|
      ensures forall i :: 0 <= i < |order| ==>
        order[i] in addrs.addrs && msg.insert[i] == BuildAddr(name, ttl, addrs.addrs[order[i]])
      ensures forall k :: k in addrs.addrs ==> k in order
      ensures forall i, j :: 0 <= i < j < |order| ==> order[i] != order[j]
      ensures forall k :: k in addrs.addrs ==> BuildAddr(name, ttl, addrs.addrs[k]) in msg.insert
      ensures forall r :: r in msg.insert ==>
        exists k :: k in addrs.addrs && r == BuildAddr(name, ttl, addrs.addrs[k])
      ensures tsig.None? ==> msg.tsig == []
      ensures tsig.Some? ==> |msg.tsig| == |tsig.value.Keys|
      ensures tsig.Some? ==> forall k :: k in tsig.value ==>
        TsigRequest(k, tsigAlgo, TSIG_FUDGE_SECONDS, now) in msg.tsig
      ensures forall t :: t in msg.tsig ==>
        tsig.Some? && t.keyName in tsig.value && t == TsigRequest(t.keyName, tsigAlgo, TSIG_FUDGE_SECONDS, now)
    {
      var rs;
      rs, order := BuildAddrs(addrs);
      var signs: seq<TsigRequest> := [];
      if tsig.Some? {
        var keys := tsig.value.Keys;
        while keys != {}
          invariant keys <= tsig.value.Keys
          invariant |signs| + |keys| == |tsig.value.Keys|
          invariant forall k :: k in tsig.value.Keys - keys ==> TsigRequest(k, tsigAlgo, TSIG_FUDGE_SECONDS, now) in signs
          invariant forall t :: t in signs ==>
            t.keyName in tsig.value.Keys - keys && t == TsigRequest(t.keyName, tsigAlgo, TSIG_FUDGE_SECONDS, now)
          decreases keys
        {
          var k :| k in keys;
          signs := signs + [TsigRequest(k, tsigAlgo, TSIG_FUDGE_SECONDS, now)];
          keys := keys - {k};
        }
      }
      msg := UpdateMsg(zone, [name], rs, signs);
    }

    /** `Update`: build the message at time `now`, exchange it with the server (with the TSIG
        secrets when configured) and return the classified error; `sent` is the message built,
        which the verbose log prints. */
    method Update(addrs: AddrSet, now: int, exchange: Transport) returns (err: Option<string>, sent: UpdateMsg)
      ensures sent.zone == zone && sent.removeNames == [name] && |sent.insert| == |addrs.addrs.Keys|
      ensures forall k :: k in addrs.addrs ==> BuildAddr(name, ttl, addrs.addrs[k]) in sent.insert
      ensures forall r :: r in sent.insert ==>
        exists k :: k in addrs.addrs && r == BuildAddr(name, ttl, addrs.addrs[k])
      ensures tsig.None? ==> sent.tsig == []
      ensures tsig.Some? ==> |sent.tsig| == |tsig.value.Keys|
      ensures tsig.Some? ==> forall k :: k in tsig.value ==>
        TsigRequest(k, tsigAlgo, TSIG_FUDGE_SECONDS, now) in sent.tsig
      ensures forall t :: t in sent.tsig ==>
        tsig.Some? && t.keyName in tsig.value && t == TsigRequest(t.keyName, tsigAlgo, TSIG_FUDGE_SECONDS, now)
      ensures err == ErrorOf(Classify(server, exchange(sent, server, tsig)))
    {
      var q, _ := BuildMsg(addrs, now);
      sent := q;
      var r := Classify(server, exchange(q, server, tsig));
      if r.Err? {
        return Some(r.error), sent;
      }
      return None, sent;
    }
  }
}
