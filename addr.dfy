/** addr.go: the address set of one interface, fed by netlink link and address events.
    The set is keyed by the canonical string of each IP and gated by the link's up flag;
    only addresses whose scope is below link scope are admitted. */
module Addr {
  import opened Wrappers
  import opened GoNet
  import opened Netlink

  /** `net.FlagUp`, bit 0 of `net.Flags`. */
  const FlagUp: bv64 := 1

  /** The fields of `netlink.LinkAttrs` the tracker reads. */
  datatype LinkAttrs = LinkAttrs(index: int, name: string, flags: bv64)

  /** `netlink.Addr`: an address and its kernel scope. */
  datatype NetlinkAddr = NetlinkAddr(ip: IP, scope: int)

  /** One item of the merged link/address streams, including the closing of either channel. */
  datatype Event =
    | LinkUpdate(attrs: LinkAttrs)
    | AddrUpdate(linkIndex: int, addr: NetlinkAddr, newAddr: bool)
    | LinkClosed
    | AddrClosed

  /** What `Read` returns: nil, `io.EOF`, or (for a finite event prefix) still waiting. */
  datatype ReadResult = Nil | EOF | Pending

  /** Whether the up flag is set in a link's flags. */
  predicate IsUp(l: LinkAttrs) {
    l.flags & FlagUp != 0
  }

  /** `updateAddr`'s scope filter: link, host and nowhere scopes are never tracked. */
  predicate Admitted(a: NetlinkAddr) {
    a.scope < SCOPE_LINK
  }

  /** The effect of `updateAddr(a, up)` on the address map. */
  function ApplyAddr(m: map<IPKey, IP>, a: NetlinkAddr, up: bool): map<IPKey, IP> {
    if !Admitted(a) then m
    else if up then m[KeyOf(a.ip) := a.ip]
    else m - {KeyOf(a.ip)}
  }

  /** Every entry is stored under the canonical string of its own IP. */
  ghost predicate KeysCanonical(m: map<IPKey, IP>) {
    forall k :: k in m ==> KeyOf(m[k]) == k
  }

  /** The addresses `Each` makes visible: the map's values while the link is up, else none. */
  function Visible(l: LinkAttrs, m: map<IPKey, IP>): set<IP> {
    if IsUp(l) then m.Values else {}
  }

  /** An address at or above link scope changes nothing, whether added or removed. */
  lemma ScopeFiltered(m: map<IPKey, IP>, a: NetlinkAddr, up: bool)
    requires a.scope >= SCOPE_LINK
    ensures ApplyAddr(m, a, up) == m
  {
  }

  /** Adding an admitted address stores it under its key; removing it drops the key; every
      other key keeps its entry either way. */
  lemma ApplyAddrEffect(m: map<IPKey, IP>, a: NetlinkAddr, up: bool)
    requires Admitted(a)
    ensures up ==> KeyOf(a.ip) in ApplyAddr(m, a, up) && ApplyAddr(m, a, up)[KeyOf(a.ip)] == a.ip
    ensures !up ==> KeyOf(a.ip) !in ApplyAddr(m, a, up)
    ensures forall k :: k != KeyOf(a.ip) ==>
      (k in ApplyAddr(m, a, up) <==> k in m) && (k in m ==> ApplyAddr(m, a, up)[k] == m[k])
  {
  }

  /** Applying the same event twice is applying it once. */
  lemma ApplyAddrIdempotent(m: map<IPKey, IP>, a: NetlinkAddr, up: bool)
    ensures ApplyAddr(ApplyAddr(m, a, up), a, up) == ApplyAddr(m, a, up)
  {
  }

  /** Removing an address whose key is absent is a no-op. */
  lemma RemoveAbsent(m: map<IPKey, IP>, a: NetlinkAddr)
    requires KeyOf(a.ip) !in m
    ensures ApplyAddr(m, a, false) == m
  {
  }

  /** Address events keep every entry under its own key. */
  lemma ApplyAddrCanonical(m: map<IPKey, IP>, a: NetlinkAddr, up: bool)
    requires KeysCanonical(m)
    ensures KeysCanonical(ApplyAddr(m, a, up))
  {
  }

  /** In a canonical map distinct keys hold distinct IPs, so `Each` sees no IP twice. */
  lemma CanonicalInjective(m: map<IPKey, IP>, k1: IPKey, k2: IPKey)
    requires KeysCanonical(m) && k1 in m && k2 in m && k1 != k2
    ensures m[k1] != m[k2]
  {
  }

  /** The map after the seeding loop of `InterfaceAddrs`: every listed address added in order. */
  function Seed(list: seq<NetlinkAddr>): map<IPKey, IP>
    decreases |list|
  {
    if |list| == 0 then map[]
    else ApplyAddr(Seed(list[..|list| - 1]), list[|list| - 1], true)
  }

  /** After seeding, the keys are exactly those of the listed addresses below link scope, each
      entry is stored under its own key, and each entry is one of those listed addresses. */
  lemma {:induction false} SeedContents(list: seq<NetlinkAddr>)
    ensures KeysCanonical(Seed(list))
    ensures Seed(list).Keys == set a | a in list && Admitted(a) :: KeyOf(a.ip)
    ensures forall k :: k in Seed(list) ==> exists a :: a in list && Admitted(a) && a.ip == Seed(list)[k]
    decreases |list|
  {
    if |list| > 0 {
      var init, last := list[..|list| - 1], list[|list| - 1];
      SeedContents(init);
      assert list == init + [last];
      ApplyAddrCanonical(Seed(init), last, true);
      var m := Seed(list);
      forall k | k in m ensures exists a :: a in list && Admitted(a) && a.ip == m[k] {
        if Admitted(last) && k == KeyOf(last.ip) {
          assert last in list;
        } else {
          var a :| a in init && Admitted(a) && a.ip == Seed(init)[k];
          assert a in list;
        }
      }
    }
  }

  /** The state `Read` leaves behind, with how many events it consumed. */
  datatype ReadOutcome = ReadOutcome(result: ReadResult, consumed: nat, link: LinkAttrs, addrs: map<IPKey, IP>)

  /** `Read` from position i of a merged event sequence: events of other links are skipped,
      link events of the tracked link replace its attributes and reading goes on, the first
      address event of the tracked link is applied and ends the call, and a closed channel
      ends it with EOF. Running out of events models a `Read` that is still waiting. */
  function ReadFrom(l: LinkAttrs, m: map<IPKey, IP>, events: seq<Event>, i: nat): (o: ReadOutcome)
    requires i <= |events|
    decreases |events| - i
  {
    if i == |events| then ReadOutcome(Pending, i, l, m)
    else match events[i]
      case LinkClosed => ReadOutcome(EOF, i + 1, l, m)
      case AddrClosed => ReadOutcome(EOF, i + 1, l, m)
      case LinkUpdate(attrs) =>
        if attrs.index != l.index then ReadFrom(l, m, events, i + 1)
        else ReadFrom(attrs, m, events, i + 1)
      case AddrUpdate(index, a, up) =>
        if index != l.index then ReadFrom(l, m, events, i + 1)
        else ReadOutcome(Nil, i + 1, l, ApplyAddr(m, a, up))
  }

  /** Events that end a `Read` of link `index`: a closed channel or an address event for it. */
  predicate Ends(index: int, e: Event) {
    e.LinkClosed? || e.AddrClosed? || (e.AddrUpdate? && e.linkIndex == index)
  }

  /** Events that have no effect at all on a `Read` of link `index`. */
  predicate Foreign(index: int, e: Event) {
    (e.LinkUpdate? && e.attrs.index != index) || (e.AddrUpdate? && e.linkIndex != index)
  }

  /** The attributes of the last link event of link `index` in `events`, if any. */
  function LastLinkUpdate(index: int, events: seq<Event>): Option<LinkAttrs> {
    if |events| == 0 then None
    else
      var e := events[|events| - 1];
      if e.LinkUpdate? && e.attrs.index == index then Some(e.attrs)
      else LastLinkUpdate(index, events[..|events| - 1])
  }

  /** `Read` stops right after the first ending event and nowhere else; the address map changes
      only through that event; the link attributes are those of the last link event of the
      tracked link read on the way, and the tracked index never changes. */
  lemma {:induction false} ReadStopsAtFirstEnd(l: LinkAttrs, m: map<IPKey, IP>, events: seq<Event>, i: nat)
    requires i <= |events|
    ensures var o := ReadFrom(l, m, events, i);
      && i <= o.consumed <= |events|
      && o.link.index == l.index
      && (forall j :: i <= j < o.consumed - 1 ==> !Ends(l.index, events[j]))
      && (o.result == Pending <==> o.consumed == |events| && (o.consumed == i || !Ends(l.index, events[o.consumed - 1])))
      && (o.result == Pending ==> o.addrs == m)
      && (o.result != Pending ==> i < o.consumed && Ends(l.index, events[o.consumed - 1]))
      && (o.result == EOF <==> i < o.consumed && (events[o.consumed - 1].LinkClosed? || events[o.consumed - 1].AddrClosed?))
      && (o.result == EOF ==> o.addrs == m)
      && (o.result == Nil ==> o.addrs == ApplyAddr(m, events[o.consumed - 1].addr, events[o.consumed - 1].newAddr))
      && o.link == match LastLinkUpdate(l.index, events[i..o.consumed]) case Some(a) => a case None => l
    decreases |events| - i
  {
    if i < |events| {
      var e := events[i];
      var o := ReadFrom(l, m, events, i);
      if e.LinkUpdate? || (e.AddrUpdate? && e.linkIndex != l.index) {
        var l' := if e.LinkUpdate? && e.attrs.index == l.index then e.attrs else l;
        ReadStopsAtFirstEnd(l', m, events, i + 1);
        assert o == ReadFrom(l', m, events, i + 1);
        LastLinkUpdateCons(l.index, events[i..o.consumed]);
        assert events[i..o.consumed][1..] == events[i + 1..o.consumed];
      } else {
        assert events[i..o.consumed] == [e];
        assert events[i..o.consumed][..0] == [];
      }
    }
  }

  /** Looking at the first event of a sequence: the last link event is found in the rest, or is
      the first event when the rest has none. */
  lemma {:induction false} LastLinkUpdateCons(index: int, events: seq<Event>)
    requires |events| > 0
    ensures LastLinkUpdate(index, events) ==
      match LastLinkUpdate(index, events[1..])
      case Some(a) => Some(a)
      case None => if events[0].LinkUpdate? && events[0].attrs.index == index then Some(events[0].attrs) else None
    decreases |events|
  {
    if |events| > 1 {
      var n := |events|;
      LastLinkUpdateCons(index, events[..n - 1]);
      assert events[..n - 1][1..] == events[1..][..n - 2];
    }
  }

  /** A run of events for other links has no effect whatever on `Read`. */
  lemma {:induction false} ForeignIgnored(l: LinkAttrs, m: map<IPKey, IP>, events: seq<Event>, i: nat, j: nat)
    requires i <= j <= |events|
    requires forall k :: i <= k < j ==> Foreign(l.index, events[k])
    ensures ReadFrom(l, m, events, i) == ReadFrom(l, m, events, j)
    decreases j - i
  {
    if i < j {
      ForeignIgnored(l, m, events, i + 1, j);
    }
  }

  /** Link events alone never touch the address map: only the up flag of the last link event
      decides what is visible. A link that goes down and comes back up with no address event in
      between shows exactly the addresses it showed before. */
  lemma FlapRestores(l: LinkAttrs, m: map<IPKey, IP>, down: LinkAttrs, up: LinkAttrs)
    requires down.index == l.index && up.index == l.index
    requires IsUp(l) && !IsUp(down) && IsUp(up)
    ensures var o1 := ReadFrom(l, m, [LinkUpdate(down)], 0);
      o1.result == Pending && Visible(o1.link, o1.addrs) == {}
    ensures var o2 := ReadFrom(l, m, [LinkUpdate(down), LinkUpdate(up)], 0);
      o2.result == Pending && o2.addrs == m && Visible(o2.link, o2.addrs) == Visible(l, m)
  {
    var ev1, ev2 := [LinkUpdate(down)], [LinkUpdate(down), LinkUpdate(up)];
    assert ReadFrom(l, m, ev1, 0) == ReadFrom(down, m, ev1, 1);
    assert ReadFrom(l, m, ev2, 0) == ReadFrom(down, m, ev2, 1) == ReadFrom(up, m, ev2, 2);
  }

  /** `AddrSet`: the tracked link's attributes and the current address map. The netlink
      channels are replaced by the event sequence handed to `Read`. */
  class AddrSet {
    var linkAttrs: LinkAttrs
    var addrs: map<IPKey, IP>

    ghost predicate Valid()
      reads this
    {
      KeysCanonical(addrs)
    }

    /** The state `InterfaceAddrs` starts from: the looked-up link and an empty map. */
    constructor (link: LinkAttrs)
      ensures Valid() && linkAttrs == link && addrs == map[]
    {
      linkAttrs := link;
      addrs := map[];
    }

    /** `testFlag`: whether any bit of `flag` is set in the link's flags. */
    function TestFlag(flag: bv64): (r: bool)
      reads this
      ensures flag == 0 ==> !r
      ensures flag == FlagUp ==> (r <==> IsUp(linkAttrs))
    {
      linkAttrs.flags & flag != 0
    }

    /** `Up`: whether the link's up flag, bit 0 of its flags, is set. */
    function Up(): (r: bool)
      reads this
      ensures r <==> IsUp(linkAttrs)
      ensures r <==> linkAttrs.flags % 2 == 1
    {
      TestFlag(FlagUp)
    }

    /** `updateAddr`: admit or drop the address's key, after the scope filter. */
    method UpdateAddr(a: NetlinkAddr, up: bool)
      requires Valid()
      modifies this
      ensures Valid()
      ensures addrs == ApplyAddr(old(addrs), a, up) && linkAttrs == old(linkAttrs)
    {
      ApplyAddrCanonical(addrs, a, up);
      if a.scope >= SCOPE_LINK {
        return;
      }
      var ip := a.ip;
      if up {
        addrs := addrs[KeyOf(ip) := ip];
      } else {
        addrs := addrs - {KeyOf(ip)};
      }
    }

    /** `updateLink`: replace the attributes wholesale; the map is kept, even on link down. */
    method UpdateLink(link: LinkAttrs)
      requires Valid()
      modifies this
      ensures Valid()
      ensures linkAttrs == link && addrs == old(addrs)
    {
      linkAttrs := link;
    }

    /** `Each`: the IPs handed to the visitor, in visiting order. Nothing while the link is
        down; otherwise each IP of the map exactly once. */
    method Each() returns (visited: seq<IP>)
      requires Valid()
      ensures !IsUp(linkAttrs) ==> visited == []
      ensures IsUp(linkAttrs) ==> |visited| == |addrs.Keys|
      ensures forall v :: v in visited <==> v in Visible(linkAttrs, addrs)
      ensures forall i, j :: 0 <= i < j < |visited| ==> visited[i] != visited[j]
    {
      visited := [];
      if !Up() {
        return;
      }
      var rest := addrs.Keys;
      while rest != {}
        invariant rest <= addrs.Keys
        invariant |visited| + |rest| == |addrs.Keys|
        invariant forall i :: 0 <= i < |visited| ==>
          KeyOf(visited[i]) in addrs.Keys - rest && addrs[KeyOf(visited[i])] == visited[i]
        invariant forall k :: k in addrs.Keys - rest ==> addrs[k] in visited
        invariant forall i, j :: 0 <= i < j < |visited| ==> visited[i] != visited[j]
        decreases rest
      {
        var k :| k in rest;
        visited := visited + [addrs[k]];
        rest := rest - {k};
      }
    }

    /** `Read`: consume events until one ends the call (see `ReadFrom`), returning the result
        and the number of events consumed. */
    method Read(events: seq<Event>) returns (result: ReadResult, consumed: nat)
      requires Valid()
      modifies this
      ensures Valid()
      ensures ReadFrom(old(linkAttrs), old(addrs), events, 0) == ReadOutcome(result, consumed, linkAttrs, addrs)
    {
      var i := 0;
      while i < |events|
        invariant 0 <= i <= |events|
        invariant Valid()
        invariant ReadFrom(old(linkAttrs), old(addrs), events, 0) == ReadFrom(linkAttrs, addrs, events, i)
        decreases |events| - i
      {
        var e := events[i];
        if e.LinkClosed? || e.AddrClosed? {
          return EOF, i + 1;
        } else if e.LinkUpdate? {
          if e.attrs.index == linkAttrs.index {
            UpdateLink(e.attrs);
          }
        } else if e.linkIndex == linkAttrs.index {
          UpdateAddr(e.addr, e.newAddr);
          return Nil, i + 1;
        }
        i := i + 1;
      }
      return Pending, |events|;
    }

    /** `InterfaceAddrs`: look the link up, seed the map from the listed addresses, then open the
        two subscriptions. The lookup, the listing and the subscription results are inputs. */
    static method InterfaceAddrs(iface: string, lookup: Result<LinkAttrs>, listing: Result<seq<NetlinkAddr>>,
                                 linkSubscribe: Option<string>, addrSubscribe: Option<string>)
      returns (r: Result<AddrSet>)
      ensures lookup.Err? ==> r == Err("netlink.LinkByName " + iface + ": " + lookup.error)
      ensures lookup.Ok? && listing.Err? ==> r == Err("netlink.AddrList " + lookup.value.name + ": " + listing.error)
      ensures lookup.Ok? && listing.Ok? && linkSubscribe.Some? ==>
        r == Err("netlink.LinkSubscribe: " + linkSubscribe.value)
      ensures lookup.Ok? && listing.Ok? && linkSubscribe.None? && addrSubscribe.Some? ==>
        r == Err("netlink.AddrSubscribe: " + addrSubscribe.value)
      ensures r.Ok? <==> lookup.Ok? && listing.Ok? && linkSubscribe.None? && addrSubscribe.None?
      ensures r.Ok? ==>
        fresh(r.value) && r.value.Valid() &&
        r.value.linkAttrs == lookup.value && r.value.addrs == Seed(listing.value)
    {
      if lookup.Err? {
        return Err("netlink.LinkByName " + iface + ": " + lookup.error);
      }
      if listing.Err? {
        return Err("netlink.AddrList " + lookup.value.name + ": " + listing.error);
      }
      var s := new AddrSet(lookup.value);
      var list := listing.value;
      var i := 0;
      while i < |list|
        invariant 0 <= i <= |list|
        invariant s.Valid() && s.linkAttrs == lookup.value
        invariant s.addrs == Seed(list[..i])
      {
        assert list[..i + 1][..i] == list[..i];
        s.UpdateAddr(list[i], true);
        i := i + 1;
      }
      assert list[..|list|] == list;
      if linkSubscribe.Some? {
        return Err("netlink.LinkSubscribe: " + linkSubscribe.value);
      }
      if addrSubscribe.Some? {
        return Err("netlink.AddrSubscribe: " + addrSubscribe.value);
      }
      return Ok(s);
    }
  }
}
