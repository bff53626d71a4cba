/**
 * The flat profile record: endpoint fields at the top level, an optional
 * transport id, and the SSH connection settings.  Its id has no scheme, and its
 * capacity says which session features the protocol supports.
 */
module FlatProfile {
  import opened Wrappers
  import opened Formatting
  import Profiles
  import opened SessionBuild

  /** The `Capacity` flag set, as the 32-bit mask it is stored in. */
  type Capacity = bv32

  const SESSION_CACHE: Capacity := 1
  const OPEN_PTY: Capacity := 2
  const OPEN_TUNNEL: Capacity := 4

  /** Every defined flag. */
  const ALL: Capacity := SESSION_CACHE | OPEN_PTY | OPEN_TUNNEL

  predicate Contains(c: Capacity, flag: Capacity)
  {
    c & flag == flag
  }

  datatype Protocol = Ssh(config: SshConfig)

  datatype Profile = Profile(
    username: string,
    address: string,
    port: u16,
    transport: Option<string>,
    protocol: Protocol)

  /** The three flags are distinct single bits, and together they make up `ALL`. */
  lemma CapacityFlagsAreBits()
    ensures SESSION_CACHE & OPEN_PTY == 0 && SESSION_CACHE & OPEN_TUNNEL == 0 && OPEN_PTY & OPEN_TUNNEL == 0
    ensures ALL == 7
  {
  }

  /** `user@address:port`, with no scheme. */
  function Id(p: Profile): (id: string)
    ensures |id| > |p.username| && id[..|p.username|] == p.username && id[|p.username|] == '@'
  {
    p.username + "@" + p.address + ":" + Decimal(p.port as nat)
  }

  /** An SSH profile supports every feature, the session cache included. */
  function ProfileCapacity(p: Profile): (c: Capacity)
    ensures Contains(c, SESSION_CACHE) && Contains(c, OPEN_PTY) && Contains(c, OPEN_TUNNEL)
    ensures forall flag: Capacity :: Contains(c, flag) ==> Contains(ALL, flag)
  {
    match p.protocol
    case Ssh(_) => ALL
  }

  /** The field-by-field copy. */
  function Clone(p: Profile): (q: Profile)
    ensures q == p
    ensures Id(q) == Id(p) && ProfileCapacity(q) == ProfileCapacity(p)
  {
    Profile(p.username, p.address, p.port, p.transport,
      match p.protocol case Ssh(cfg) => Ssh(cfg))
  }

  /** The flat id is the endpoint id of the scheme-carrying profile, without the scheme,
    * and it reads back the same way. */
  lemma {:induction false} IdMatchesEndpointId(p: Profile, auth: Profiles.SshAuthMethod, hostKey: string)
    requires Lacks(p.username, '@')
    ensures var e := Profiles.SshProfile(p.username, p.address, p.port, auth, hostKey);
      && Id(p) == Profiles.SshId(e)
      && Profiles.Id(Profiles.Profile(p.transport, Profiles.SSH(e))) == Profiles.Scheme + Id(p)
      && Profiles.ParseSshId(Id(p)) == Some((p.username, p.address, p.port as nat))
  {
    var e := Profiles.SshProfile(p.username, p.address, p.port, auth, hostKey);
    Profiles.SshIdRoundTrip(e);
  }

  /** The id ignores the transport and the protocol settings. */
  lemma IdIgnoresRouting(p: Profile, t: Option<string>, proto: Protocol)
    ensures Id(p.(transport := t, protocol := proto)) == Id(p)
  {
  }
}
