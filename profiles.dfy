/**
 * Profiles as the session builder and the in-memory store see them: an SSH
 * endpoint plus an optional reference (by id) to the profile whose session
 * carries this one's traffic.  Ids have the form `ssh://user@address:port`.
 */
module Profiles {
  import opened Wrappers
  import opened Formatting

  datatype SshAuthMethod = Password(secret: string) | AuthorizedKey(key: string)

  datatype SshProfile = SshProfile(
    username: string,
    address: string,
    port: u16,
    authMethod: SshAuthMethod,
    hostKey: string)

  datatype Protocol = SSH(ssh: SshProfile)

  /** `transport` names the profile this one is reached through, if any. */
  datatype Profile = Profile(transport: Option<string>, protocol: Protocol)

  const Scheme: string := "ssh://"

  /** `user@address:port`: the identity of an SSH endpoint. */
  function SshId(p: SshProfile): string
  {
    p.username + "@" + p.address + ":" + Decimal(p.port as nat)
  }

  /** The store and cache key of a profile: the scheme, then the endpoint id. */
  function Id(p: Profile): (id: string)
    ensures |id| >= |Scheme| && id[..|Scheme|] == Scheme
  {
    match p.protocol
    case SSH(ssh) => Scheme + SshId(ssh)
  }

  /** Splits `user@address:port` at its first `@` and its last `:`. */
  function ParseSshId(id: string): Option<(string, string, nat)>
  {
    var at := FirstIndexOf(id, '@');
    var colon := LastIndexOf(id, ':');
    if at < colon && colon + 1 < |id|
       && forall i :: colon + 1 <= i < |id| ==> IsDigit(id[i])
    then Some((id[..at], id[at + 1..colon], ParseDecimal(id[colon + 1..])))
    else None
  }

  /** The partner of `Id`: strips the scheme and splits the endpoint id. */
  function ParseId(id: string): Option<(string, string, nat)>
  {
    if |id| >= |Scheme| && id[..|Scheme|] == Scheme then ParseSshId(id[|Scheme|..]) else None
  }

  /** An endpoint id gives back username, address and port, provided the username has no `@`. */
  lemma SshIdRoundTrip(p: SshProfile)
    requires Lacks(p.username, '@')
    ensures ParseSshId(SshId(p)) == Some((p.username, p.address, p.port as nat))
  {
    var d := Decimal(p.port as nat);
    var id := SshId(p);
    DecimalLacksSeparators(p.port as nat);
    assert id == (p.username + "@" + p.address) + [':'] + d;
    LastIndexOfSeparated(p.username + "@" + p.address, d, ':');
    assert id == p.username + ['@'] + (p.address + ":" + d);
    FirstIndexOfSeparated(p.username, p.address + ":" + d, '@');
    var at, colon := |p.username|, |p.username| + 1 + |p.address|;
    assert id[..at] == p.username;
    assert id[at + 1..colon] == p.address;
    assert id[colon + 1..] == d;
    ParseDecimalOfDecimal(p.port as nat);
  }

  lemma IdRoundTrip(p: Profile)
    requires Lacks(p.protocol.ssh.username, '@')
    ensures ParseId(Id(p)) == Some((p.protocol.ssh.username, p.protocol.ssh.address, p.protocol.ssh.port as nat))
  {
    var id := Id(p);
    assert id[|Scheme|..] == SshId(p.protocol.ssh);
    SshIdRoundTrip(p.protocol.ssh);
  }

  /** Two profiles share an id exactly when they agree on username, address and port
    * (usernames without `@`); transport, credentials and host key play no part. */
  lemma IdIdentifiesEndpoint(p: Profile, q: Profile)
    requires Lacks(p.protocol.ssh.username, '@') && Lacks(q.protocol.ssh.username, '@')
    ensures Id(p) == Id(q) <==>
      (p.protocol.ssh.username == q.protocol.ssh.username
       && p.protocol.ssh.address == q.protocol.ssh.address
       && p.protocol.ssh.port == q.protocol.ssh.port)
  {
    if Id(p) == Id(q) {
      IdRoundTrip(p);
      IdRoundTrip(q);
    }
  }

  /** The id ignores the transport: a profile keeps its id when it is routed differently. */
  lemma IdIgnoresTransport(p: Profile, t: Option<string>)
    ensures Id(p.(transport := t)) == Id(p)
  {
  }

  /** The endpoint id ignores the authentication method and the host key. */
  lemma SshIdIgnoresCredentials(p: SshProfile, m: SshAuthMethod, k: string)
    ensures SshId(p.(authMethod := m, hostKey := k)) == SshId(p)
  {
  }

  /** Without the `@` restriction two different endpoints can share an id. */
  lemma IdCollidesOnAtInUsername()
    ensures var p := SshProfile("a@b", "c", 22, Password(""), "");
            var q := SshProfile("a", "b@c", 22, Password(""), "");
            p != q && SshId(p) == SshId(q)
  {
  }
}
