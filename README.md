# go-nsupdate: a Dafny model of the address tracker and the update builder

go-nsupdate keeps the A/AAAA records of one DNS name in step with the addresses of a
network interface. It does this with RFC 2136 dynamic updates, optionally signed with TSIG.
This project models its core and proves properties of the model:

- **The address tracker** (`addr.go`, module `Addr`). An `AddrSet` class holds the
  tracked link's attributes and a map from each IP's canonical string to the IP.
  - `UpdateAddr` admits only addresses whose scope is below link scope. It then inserts
    or deletes that one key.
  - `UpdateLink` replaces the attributes and never touches the map.
  - `Each` shows the addresses only while the link's up flag is set.
  - `Read` consumes a merged sequence of link and address events. It skips other links,
    applies link events and keeps reading, and stops right after the first address event
    of the tracked link. A closed channel gives EOF.
  - `InterfaceAddrs` seeds the map from the listed addresses.
- **The update builder** (`update.go`, module `Updates`). An `Update` class holds the name,
  zone, TTL, TSIG key table and server.
  - `Init` normalises the name, derives or normalises the zone, and defaults the server.
  - `InitTSIG` installs a one-key table.
  - `BuildAddr` picks an A record (RFC 1035 section 3.4.1) or an AAAA record (RFC 3596
    section 2.1).
  - `BuildMsg` builds an abstract UPDATE message (not wire bytes). It has the zone
    section (RFC 2136 section 2.3), a "delete all RRsets from a name" directive
    (section 2.5.3), one "add to an RRset" record per address (section 2.5.1), and one
    TSIG request per key with a 300-second fudge (RFC 8945 section 4.2).
  - `Update` classifies the server's answer.
- **The flag parsers and SOA selection**:
  - `dns.go` (module `Dns`): the TSIG algorithm parser, the fudge constant, the
    choice of a zone's primary server from the first SOA record, and the resolver
    query's first-success rule.
  - `netlink.go` (module `Netlink`): the family parser.
  - `main.go` (module `LegacyMain`): an earlier iteration of the program. It has its own
    parsers, and it builds an update from command-line options.

Library behaviour the program relies on is modelled in two modules:

- `GoNet` (file `gonet.dfy`): Go's `uint32` conversion, `net.IP.To4`, `To16` and
  `String`, and `net.SplitHostPort` / `JoinHostPort`.
- `DnsLib` (file `dnslib.dfy`): `dns.Fqdn`, `dns.Split`, the constants and an abstract
  form of the DNS records and messages.

Two behaviours of the code are worth stating up front:

- `buildAddrs` appends a nil record for an IP with no 4- or 16-byte form (update.go:79,
  update.go:83). `Updates.Update.BuildAddrs` keeps that entry as `None`.
- `buildAddrs` reads `addrs.addrs` directly and ignores the link state (update.go:82).

Modelling choices:

- `ip.String()` is modelled by `GoNet.KeyOf`. It returns a canonical key (`IPKey`) with
  the same branches as Go's `String`, not the text itself. `GoNet.KeyOfIdentifies` proves
  that two IPs get the same key exactly when they are the same address.
- Names are plain dotted strings. Backslash escapes are not modelled.
- Errors are the message text of the Go errors.

## Model

| member | source | states |
|---|---|---|
| GoNet.Uint32 | update.go:67 | The TTL conversion keeps the low 32 bits. The result is below 2^32, congruent to the TTL, and equal to it when the TTL is already in range. |
| GoNet.To4 | update.go:65 | A 4-byte form exists exactly for a 4-byte IP or an IPv4-mapped 16-byte IP, and it is 4 bytes long. |
| GoNet.To16 | update.go:72 | A 16-byte form exists exactly for 4- and 16-byte IPs, and it is 16 bytes long. |
| GoNet.To4OfTo16 | update.go:65-72 | Taking an IPv4 address to its 16-byte form and back gives the same 4-byte form. |
| GoNet.KeyOfIdentifies | addr.go:112 | Two IPs share a map key exactly when they are the same address. A 4-byte address and its IPv4-mapped form share one key. |
| GoNet.SplitJoin | update.go:49-53 | Splitting a joined host and port gives both back, for a host without brackets and a port without ':' or brackets. |
| DnsLib.Fqdn | update.go:26 | The result is fully qualified, and it is the input extended by at most one character. |
| DnsLib.FqdnIdempotent | update.go:37 | Normalising twice is normalising once. A qualified name is left unchanged. |
| DnsLib.Split | update.go:31 | Every label offset lies within the name. |
| DnsLib.SplitSecondLabel | update.go:31-32 | A name has a second label exactly when it has a dot before its last character. That label starts just after the first dot. |
| Netlink.UnmarshalFlag | netlink.go:11-23 | A successful parse yields one of FAMILY_ALL, FAMILY_V4 and FAMILY_V6. |
| Netlink.UnmarshalFlagTable | netlink.go:12-21 | "unspec"/"all" give FAMILY_ALL, "inet"/"ipv4" give FAMILY_V4 and "inet6"/"ipv6" give FAMILY_V6. Any other text gives "Invalid --family=<text>" and leaves the receiver unchanged. |
| Netlink.AllIsZeroValue | netlink.go:8-14 | "unspec" and "all" select the zero value. |
| Netlink.UnmarshalFlagIgnoresReceiver | netlink.go:12-18 | A successful parse does not depend on the receiver's previous value. |
| Dns.UnmarshalFlag | dns.go:14-29 | A successful parse yields one of the four library algorithm names. |
| Dns.UnmarshalFlagTable | dns.go:15-26 | "hmac-md5"/"md5", "hmac-sha1"/"sha1", "hmac-sha256"/"sha256" and "hmac-sha512"/"sha512" each select their HMAC algorithm. Any other text gives "Invalid --tsig-algorithm=<text>" and leaves the receiver unchanged. |
| Dns.CanonicalNamesRejected | dns.go:24-25 | The library's dotted algorithm names, such as "hmac-sha1.", are rejected and leave the receiver unchanged. |
| Dns.FirstSoa | dns.go:70-74 | The result is absent exactly when the answer has no SOA. Otherwise it is the Ns of an SOA that no other SOA precedes. |
| Dns.DiscoverZoneServer | dns.go:65-76 | A failed query's error is passed on. It is "No SOA response" exactly when the answer has no SOA. Otherwise it is the first SOA's Ns. |
| Dns.NoSoaNoServer | dns.go:76 | An answer without SOA records gives "No SOA response". |
| Dns.QueryServers | dns.go:45-56 | The result is the reply of the first server, in list order and on port 53, whose exchange succeeded. When every exchange fails it is "DNS query failed". |
| Dns.Query | dns.go:31-56 | A resolver-configuration error is returned as is. Otherwise the only possible error is "DNS query failed", and a first server that answers gives its reply. |
| Addr.ScopeFiltered | addr.go:103-105 | An address at or above link scope leaves the map unchanged, whether added or removed. |
| Addr.ApplyAddrEffect | addr.go:109-118 | Adding an admitted address maps its key to its IP. Removing it deletes the key. Every other key keeps its entry. |
| Addr.ApplyAddrIdempotent | addr.go:112 | Applying the same address event twice gives the same map as applying it once. |
| Addr.RemoveAbsent | addr.go:117 | Removing an address whose key is absent is a no-op. |
| Addr.ApplyAddrCanonical | addr.go:107-117 | Address events keep every entry stored under its own IP's key. |
| Addr.CanonicalInjective | addr.go:135-137 | In a canonical map, distinct keys hold distinct IPs. |
| Addr.SeedContents | addr.go:45-49 | After seeding, the keys are exactly those of the listed addresses below link scope. Each entry is one of those addresses, stored under its own key. |
| Addr.ReadStopsAtFirstEnd | addr.go:67-99 | Read stops right after the first closed channel or tracked-link address event, and nowhere earlier. EOF exactly for a closed channel, with the map unchanged. Nil after applying that one address event. Waiting, with the map unchanged, when no such event occurs. The link attributes are those of the last tracked-link event read, and the tracked index never changes. |
| Addr.ForeignIgnored | addr.go:75-91 | A run of events for other link indexes has no effect on Read's outcome or state. |
| Addr.FlapRestores | addr.go:121-138 | After a down event nothing is visible. After down then up, with no address events, the map is unchanged and the visible set equals the one before. |
| Addr.AddrSet.constructor | addr.go:32-45 | A new set holds the looked-up link attributes and an empty map. |
| Addr.AddrSet.TestFlag | addr.go:23-25 | No bit is set for an empty mask. Testing FlagUp is the up state. |
| Addr.AddrSet.Up | addr.go:27-29 | Up holds exactly when bit 0 of the link flags is set. |
| Addr.AddrSet.UpdateAddr | addr.go:102-119 | The new map is the scope-filtered insert or delete of the address's key. The link attributes are unchanged and entries stay canonical. |
| Addr.AddrSet.UpdateLink | addr.go:121-127 | The attributes are replaced wholesale and the map is unchanged, even when the link goes down. |
| Addr.AddrSet.Each | addr.go:129-138 | Nothing is visited while the link is down. Otherwise every IP of the map is visited exactly once. |
| Addr.AddrSet.Read | addr.go:67-99 | The result, the events consumed and the new state are those of the reference reading `ReadFrom` of the old state. |
| Addr.AddrSet.InterfaceAddrs | addr.go:31-65 | Lookup, listing and subscription errors are reported in source order. On success the set is fresh, holds the link's attributes, and holds the seeded map of the listed addresses. |
| Updates.DeriveZone | update.go:29-35 | The only error is "Missing zone". A derived zone of a qualified name is a shorter, qualified suffix of it. |
| Updates.DeriveZoneParent | update.go:31-32 | A zone is derived exactly when the name has a dot before its last character. It is the part after the first dot. |
| Updates.SingleLabelHasNoZone | update.go:33-34 | A single-label name gives "Missing zone". |
| Updates.InitZone | update.go:29-38 | The recorded zone is fully qualified whether given or derived. |
| Updates.ServerAddressHasPort | update.go:48-54 | A server with a port is kept verbatim. A server without a port and without brackets gets port 53 and then splits into that server and "53". Bracketed servers are covered by the next row. |
| Updates.BracketedServerAsWritten | update.go:49-52 | The bracketed server "[::1]" has no port, is joined into "[[::1]]:53", and that address does not split. |
| Updates.ServerAddressCorrectedHasPort | update.go:48-54 | With the brackets stripped before joining, a server with a port is kept verbatim. Any server without a port whose bare host has no brackets splits into that bare host and "53". |
| Updates.ServerAddressCorrectedAgrees | update.go:48-54 | The corrected address equals the written one for every bracket-free server. It turns "[::1]" into "[::1]:53". |
| Updates.InitServer | update.go:40-54 | The only error is the discovery failure, which happens only when no server is given. |
| Updates.BuildAddr | update.go:64-80 | An A record exactly when the IP has a 4-byte form, otherwise AAAA for a 16-byte IP, otherwise nil. Each record carries the owner name, class IN, the TTL cut to 32 bits and the same address. |
| Updates.MappedIsA | update.go:65-69 | An IPv4-mapped IPv6 address is published as an A record of its 4-byte form. |
| Updates.ExampleRecordA | update.go:64-70 | For host.example.com. at TTL 60, 10.0.0.5 gives an A record with class IN and the same four bytes. |
| Updates.ExampleRecordAAAA | update.go:64-77 | For host.example.com. at TTL 60, 2001:db8::5 gives an AAAA record with class IN and the same sixteen bytes. |
| Updates.ExampleZone | update.go:29-35 | The zone derived for host.example.com. is example.com. |
| Updates.Classify | update.go:116-126 | Success exactly for an exchanged reply with the success rcode, and it carries that reply. A transport error and a failure rcode give errors with distinct prefixes. |
| Updates.ClassifyRcodeNames | update.go:125 | A failure rcode is reported by its library name, for example "rcode=REFUSED". An unnamed rcode gives "rcode=". |
| Updates.ErrorOf | update.go:136-146 | Update returns nil exactly when the query succeeded. |
| Updates.Update.constructor | update.go:11-20 | A new Update holds the given TTL and timeout, and every other field is at its zero value (a nil key table). |
| Updates.Update.Init | update.go:22-57 | An empty name fails with "Missing name". Otherwise the name is stored qualified. A zone is then stored or "Missing zone" returned, and then the server or the discovery error. Fields after the failing step stay unchanged. |
| Updates.Update.InitTSIG | update.go:59-62 | The key table has exactly one entry, the qualified key name mapped to the secret. The algorithm is stored and nothing else changes. |
| Updates.Update.BuildAddrs | update.go:81-87 | One record or nil per map entry, in an iteration order that lists each key exactly once. Every entry's record appears and no other. The link state is not consulted. |
| Updates.Update.BuildMsg | update.go:89-103 | Zone section = zone, one delete-all directive for the name, and the address records of BuildAddrs. With no key table there is no TSIG. Otherwise there is one TSIG request per key, with the stored algorithm, fudge 300 and the given time. |
| Updates.Update.Update | update.go:129-147 | Returns the message just built and the classification of its exchange as the error, nil on success. The message has the zone, one delete-all directive for the name, and one record per map entry: every entry's record appears and no other. Its TSIG requests are as in BuildMsg: none without a key table, otherwise one per key with the stored algorithm, fudge 300 and the given time. |
| LegacyMain.UnmarshalFamily | main.go:17-28 | A successful parse yields FAMILY_V4 or FAMILY_V6 only. |
| LegacyMain.FamilyParsersDiffer | main.go:18-24 | "unspec" and "all" are rejected here but accepted in netlink.go. On every other text the two parsers agree. |
| LegacyMain.UnmarshalTsigAlgorithm | main.go:33-48 | A successful parse yields one of the four library algorithm names. |
| LegacyMain.TsigParsersAgree | main.go:30-48 | This copy of the algorithm parser and of the fudge constant agrees with dns.go on every input. |
| LegacyMain.DefaultRejectedAsWritten | main.go:60 | With the flag absent, the declared default "hmac-sha1." fails to parse. |
| LegacyMain.TsigAlgorithmOption | main.go:60 | With the corrected default "hmac-sha1", an absent flag selects HMAC-SHA1. A given flag is parsed as dns.go does. |
| LegacyMain.Configure | main.go:54-95 | With the default as written, fails exactly when the algorithm option, or the declared default in its absence, does not parse, and returns that parse error. Zone and name are only made fully qualified. TTL and timeout are copied. A TSIG key is configured exactly when a key name is given. |
| LegacyMain.ConfigureNeedsAlgorithm | main.go:60-95 | Without `--tsig-algorithm` the configuration fails with "Invalid --tsig-algorithm=hmac-sha1.". It succeeds exactly when the flag is given an accepted spelling. |
| LegacyMain.ConfigureServer | main.go:85-89 | A server with a port is kept. A bracket-free server without a port gets port 53 and splits back into that server and "53", with no discovery, so an empty server becomes ":53". |
| LegacyMain.ConfigureDefaults | main.go:78-95 | An empty name or zone becomes "." with no error. The TSIG key holds the qualified key name, the secret and the parsed algorithm. |

## Left out

- Netlink I/O: `LinkByName`, `AddrList`, `LinkSubscribe`, `AddrSubscribe` and the channels. Their outcomes are inputs to `InterfaceAddrs`, and the events are a given merged sequence. The `select` interleaving belongs to the Go runtime.
- Addr.AddrSet.InterfaceAddrs: the `AddrList` error prints the whole link value, and the model prints only the link's name. The family filter is applied by the netlink library, so the listing passed in is already filtered.
- Addr.AddrSet.Read: a `Read` that blocks forever has no counterpart. A finite event sequence that ends before any ending event gives `Pending`.
- Network exchanges: `Client.Exchange`, reading `/etc/resolv.conf` and the SOA query of server discovery are inputs. They are given as a transport function, a configuration result and a `resolve` function.
- DNS wire encoding, message IDs and the TSIG HMAC signature are not modelled. The message is an abstract datatype.
- The library's `Msg.Insert` calls `Header()` on each record. The nil record of update.go:79 would therefore crash the program inside `Insert`. The model keeps that entry as `None` in the message instead of modelling the crash.
- Name handling: escaped dots in `dns.Fqdn` and `dns.Split` are not modelled. `ip.String()` is modelled by a canonical key, not by its text.
- Clock: the TSIG time is a parameter of `BuildMsg`. All TSIG requests of one build share it.
- Logging: `AddrSet.String`, the log lines, and `Update`'s `verbose` parameter, which only controls logging.
- The client timeouts are stored in `Update.timeout`, but their effect on the exchange belongs to the transport.
- The process-control part of `main`: `flags.Parse` beyond the algorithm option, `log.Fatalf`, and the calls to `initTSIG`, `scan` and `update`, which do not exist in update.go. `Configure` records the `initTSIG` arguments instead.
- Configure follows the flags library in converting an absent option's declared default through `UnmarshalFlag` and reporting a failed conversion as a parse error. A library that skipped the conversion would leave the algorithm empty instead.

## Findings

| source | as written | input that shows it | evidently intended | confidence | as-written member | corrected member |
|---|---|---|---|---|---|---|
| main.go:60 | The `--tsig-algorithm` option declares the default "hmac-sha1.", which is not one of the spellings its parser accepts (main.go:35-45). | Omitting `--tsig-algorithm`: the default goes through `UnmarshalFlag` and gives "Invalid --tsig-algorithm=hmac-sha1." | A default that selects HMAC-SHA1, spelled "hmac-sha1" | not executed; medium, because it depends on the flags library converting defaults through `UnmarshalFlag` | LegacyMain.DefaultRejectedAsWritten | LegacyMain.TsigAlgorithmOption |
| update.go:52 (also main.go:88) | A server without a port is passed to `net.JoinHostPort` as given, and `JoinHostPort` brackets any host containing ':'. | `--server=[::1]`: the address becomes "[[::1]]:53", which `net.SplitHostPort` and the dialer reject. | Strip the brackets of a bracketed IPv6 host before joining, giving "[::1]:53" | not executed; low, because the flag's HOST[:PORT] form may expect an IPv6 host unbracketed when no port is given | Updates.BracketedServerAsWritten | Updates.ServerAddressCorrectedHasPort |
