/** The `--family` flag parser of netlink.go, with the netlink library constants it uses. */
module Netlink {
  import opened Wrappers

  /** An address family number as netlink uses it; the zero value means "all families". */
  type Family = int

  const FAMILY_ALL: Family := 0
  const FAMILY_V4: Family := 2
  const FAMILY_V6: Family := 10

  /** Kernel address scope of link-local addresses; scopes below it (universe, site) are routable. */
  const SCOPE_LINK: int := 253

  function InvalidFamily(value: string): string {
    "Invalid --family=" + value
  }

  /** `Family.UnmarshalFlag`: a switch on the flag text that writes the receiver on a match
      and returns an error, leaving the receiver alone, otherwise. */
  function UnmarshalFlag(f: Family, value: string): (r: Assigned<Family>)
    ensures r.err.None? ==> r.receiver in {FAMILY_ALL, FAMILY_V4, FAMILY_V6}
  {
    match value
    case "unspec" | "all" => Assigned(FAMILY_ALL, None)
    case "inet" | "ipv4" => Assigned(FAMILY_V4, None)
    case "inet6" | "ipv6" => Assigned(FAMILY_V6, None)
    case _ => Assigned(f, Some(InvalidFamily(value)))
  }

  /** The accepted spellings and the family each one selects. */
  const FamilyNames: map<string, Family> := map[
    "unspec" := FAMILY_ALL, "all" := FAMILY_ALL,
    "inet" := FAMILY_V4, "ipv4" := FAMILY_V4,
    "inet6" := FAMILY_V6, "ipv6" := FAMILY_V6]

  /** The parser accepts exactly the names of the table, selecting the family it lists,
      and otherwise reports the flag text and keeps the previous value. */
  lemma UnmarshalFlagTable(f: Family, value: string)
    ensures value in FamilyNames ==> UnmarshalFlag(f, value) == Assigned(FamilyNames[value], None)
    ensures value !in FamilyNames ==> UnmarshalFlag(f, value) == Assigned(f, Some(InvalidFamily(value)))
  {
  }

  /** "unspec"/"all" select the zero value, so parsing them is the same as not setting the flag. */
  lemma AllIsZeroValue(f: Family)
    ensures UnmarshalFlag(f, "unspec").receiver == 0 && UnmarshalFlag(f, "all").receiver == 0
  {
  }

  /** On success the result does not depend on the receiver's previous value. */
  lemma UnmarshalFlagIgnoresReceiver(f: Family, g: Family, value: string)
    requires UnmarshalFlag(f, value).err.None?
    ensures UnmarshalFlag(g, value) == UnmarshalFlag(f, value)
  {
  }
}
