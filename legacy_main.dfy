/** main.go, an earlier iteration of the program with its own copies of the flag parsers and
    the construction of an update from command-line options. */
module LegacyMain {
  import opened Wrappers
  import opened GoNet
  import opened DnsLib
  import Netlink
  import Dns

  /** main.go's own `Family`; as in netlink.go, the zero value means all families. */
  type Family = int

  /** main.go's `Family.UnmarshalFlag`: only the IPv4 and IPv6 spellings. */
  function UnmarshalFamily(f: Family, value: string): (r: Assigned<Family>)
    ensures r.err.None? ==> r.receiver in {Netlink.FAMILY_V4, Netlink.FAMILY_V6}
  {
    match value
    case "inet" | "ipv4" => Assigned(Netlink.FAMILY_V4, None)
    case "inet6" | "ipv6" => Assigned(Netlink.FAMILY_V6, None)
    case _ => Assigned(f, Some("Invalid --family=" + value))
  }

  /** "unspec" and "all" are rejected here, unlike netlink.go; everything else is parsed the
      same way by both. */
  lemma FamilyParsersDiffer(f: Family, value: string)
    ensures value in {"unspec", "all"} ==>
      UnmarshalFamily(f, value) == Assigned(f, Some("Invalid --family=" + value)) &&
      Netlink.UnmarshalFlag(f, value) == Assigned(Netlink.FAMILY_ALL, None)
    ensures value !in {"unspec", "all"} ==> UnmarshalFamily(f, value) == Netlink.UnmarshalFlag(f, value)
  {
  }

  const TSIG_FUDGE_SECONDS: nat := 300

  type TSIGAlgorithm = string

  /** main.go's `TSIGAlgorithm.UnmarshalFlag`. */
  function UnmarshalTsigAlgorithm(t: TSIGAlgorithm, value: string): (r: Assigned<TSIGAlgorithm>)
    ensures r.err.None? ==> r.receiver in {HmacMD5, HmacSHA1, HmacSHA256, HmacSHA512}
  {
    match value
    case "hmac-md5" | "md5" => Assigned(HmacMD5, None)
    case "hmac-sha1" | "sha1" => Assigned(HmacSHA1, None)
    case "hmac-sha256" | "sha256" => Assigned(HmacSHA256, None)
    case "hmac-sha512" | "sha512" => Assigned(HmacSHA512, None)
    case _ => Assigned(t, Some("Invalid --tsig-algorithm=" + value))
  }

  /** The two copies of the algorithm parser, and of the fudge constant, agree. */
  lemma TsigParsersAgree(t: TSIGAlgorithm, value: string)
    ensures UnmarshalTsigAlgorithm(t, value) == Dns.UnmarshalFlag(t, value)
    ensures TSIG_FUDGE_SECONDS == Dns.TSIG_FUDGE_SECONDS
  {
  }

  /** The `default` tag of the `--tsig-algorithm` option, as written. */
  const DefaultTsigAlgorithmAsWritten := "hmac-sha1."

  /** The value of the `--tsig-algorithm` option after parsing, with the default as written:
      the flag text, or the default when the flag is absent, goes through `UnmarshalFlag`. */
  function TsigAlgorithmOptionAsWritten(given: Option<string>): Assigned<TSIGAlgorithm> {
    UnmarshalTsigAlgorithm("", if given.Some? then given.value else DefaultTsigAlgorithmAsWritten)
  }

  /** Without the flag, the declared default fails to parse. */
  lemma DefaultRejectedAsWritten()
    ensures TsigAlgorithmOptionAsWritten(None) == Assigned("", Some("Invalid --tsig-algorithm=hmac-sha1."))
  {
    assert "Invalid --tsig-algorithm=" + DefaultTsigAlgorithmAsWritten == "Invalid --tsig-algorithm=hmac-sha1.";
  }

  /** The default the option evidently means: the "hmac-sha1" spelling of HMAC-SHA1. */
  const DefaultTsigAlgorithm := "hmac-sha1"

  /** The value of the `--tsig-algorithm` option after parsing, with the corrected default. */
  function TsigAlgorithmOption(given: Option<string>): (r: Assigned<TSIGAlgorithm>)
    ensures given.None? ==> r == Assigned(HmacSHA1, None)
    ensures given.Some? ==> r == Dns.UnmarshalFlag("", given.value)
  {
    UnmarshalTsigAlgorithm("", if given.Some? then given.value else DefaultTsigAlgorithm)
  }

  /** The options `main` reads to configure an update (its `Options` struct after parsing,
      with the algorithm flag as given on the command line, if at all). */
  datatype Options = Options(
    server: string,
    timeout: int,
    tsigName: string,
    tsigSecret: string,
    tsigAlgorithm: Option<string>,
    zone: string,
    name: string,
    ttl: int)

  /** The arguments of the `initTSIG` call that `main` makes. */
  datatype TsigKey = TsigKey(keyName: string, secret: string, algorithm: TSIGAlgorithm)

  /** The update `main` constructs before scanning and updating. */
  datatype MainUpdate = MainUpdate(
    zone: string, name: string, ttl: int, timeout: int, server: string, tsig: Option<TsigKey>)

  /** `main` up to the `initTSIG` call, with the option default as written: an invalid
      algorithm flag, or an absent one (`ConfigureNeedsAlgorithm`), stops option parsing;
      otherwise zone and name are only made fully qualified, the server gets port 53 unless it
      has a port, and a TSIG key is set up exactly when a key name is given. */
  function Configure(o: Options): (r: Result<MainUpdate>)
    ensures r.Err? <==> TsigAlgorithmOptionAsWritten(o.tsigAlgorithm).err.Some?
    ensures r.Err? ==> r.error == TsigAlgorithmOptionAsWritten(o.tsigAlgorithm).err.value
    ensures r.Ok? ==> r.value.zone == Fqdn(o.zone) && r.value.name == Fqdn(o.name)
    ensures r.Ok? ==> r.value.ttl == o.ttl && r.value.timeout == o.timeout
    ensures r.Ok? ==> (r.value.tsig.Some? <==> o.tsigName != "")
  {
    var algo := TsigAlgorithmOptionAsWritten(o.tsigAlgorithm);
    if algo.err.Some? then Err(algo.err.value)
    else
      var server := if SplitHostPort(o.server).Ok? then o.server else JoinHostPort(o.server, "53");
      var tsig := if o.tsigName != "" then Some(TsigKey(Fqdn(o.tsigName), o.tsigSecret, algo.receiver)) else None;
      Ok(MainUpdate(Fqdn(o.zone), Fqdn(o.name), o.ttl, o.timeout, server, tsig))
  }

  /** As written, the program runs only when `--tsig-algorithm` is given one of the accepted
      spellings; without it, parsing fails on the declared default. */
  lemma ConfigureNeedsAlgorithm(o: Options)
    ensures o.tsigAlgorithm.None? ==> Configure(o) == Err("Invalid --tsig-algorithm=hmac-sha1.")
    ensures Configure(o).Ok? <==> o.tsigAlgorithm.Some? && Dns.UnmarshalFlag("", o.tsigAlgorithm.value).err.None?
  {
    DefaultRejectedAsWritten();
    if o.tsigAlgorithm.Some? {
      TsigParsersAgree("", o.tsigAlgorithm.value);
    }
  }

  /** The server keeps its port when it has one and otherwise gets ":53" joined on, with no
      discovery step: an empty server becomes ":53". */
  lemma ConfigureServer(o: Options)
    requires Configure(o).Ok?
    ensures SplitHostPort(o.server).Ok? ==> Configure(o).value.server == o.server
    ensures Free(o.server, {'[', ']'}) && SplitHostPort(o.server).Err? ==>
      SplitHostPort(Configure(o).value.server) == Ok((o.server, "53"))
    ensures o.server == "" ==> Configure(o).value.server == ":53"
  {
    if Free(o.server, {'[', ']'}) && SplitHostPort(o.server).Err? {
      SplitJoin(o.server, "53");
    }
    if o.server == "" {
      assert JoinHostPort("", "53") == ":53";
    }
  }

  /** An empty name or zone is not an error and becomes the root "."; the TSIG key carries the
      qualified key name, the secret and the parsed algorithm. */
  lemma ConfigureDefaults(o: Options)
    requires Configure(o).Ok?
    ensures o.name == "" ==> Configure(o).value.name == "."
    ensures o.zone == "" ==> Configure(o).value.zone == "."
    ensures o.tsigName != "" ==>
      Configure(o).value.tsig ==
        Some(TsigKey(Fqdn(o.tsigName), o.tsigSecret, TsigAlgorithmOptionAsWritten(o.tsigAlgorithm).receiver))
  {
  }
}
