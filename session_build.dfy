/**
 * Building a shared SSH session from a connection profile, either directly or
 * through a tunnel opened on an already open session (its transport).  The
 * network steps (`Session::new`, `local_tunnel`, `Session::new_with_stream`)
 * are given as outcome functions.
 */
module SessionBuild {
  import opened Wrappers
  import opened Formatting
  import opened SessionGuard

  datatype SshConfig = SshConfig(address: string, username: string, password: string, port: u16)

  datatype BuildError = BuildError(reason: string)

  /** A stream tunnelled through a transport session to `address:port`. */
  datatype TunnelStream = TunnelStream(serial: nat)

  /** A tunnel stream together with the guard on the session it runs through. */
  datatype PpTunnelGuard = PpTunnelGuard(stream: TunnelStream, transport: PpSessionGuard)

  /** A session connected straight to its endpoint, or over a guarded tunnel. */
  datatype BuiltSession =
    | DirectSession(config: SshConfig)
    | TunnelledSession(config: SshConfig, tunnel: PpTunnelGuard)

  /** The profile used when none is configured. */
  function DefaultConfig(): (p: SshConfig)
    ensures p.address == "localhost" && p.username == "root"
    ensures p.password == "123456" && p.port == 22
  {
    SshConfig("localhost", "root", "123456", 22)
  }

  /** `build`: `connect` is the outcome of connecting directly, `localTunnel` that of
    * opening a tunnel on a transport, `handshake` that of starting SSH over a tunnel. */
  function Build(
    p: SshConfig,
    transport: Option<PpSessionGuard>,
    connect: SshConfig -> Option<BuildError>,
    localTunnel: (PpSessionGuard, string, u16) -> Result<TunnelStream, BuildError>,
    handshake: (PpTunnelGuard, SshConfig) -> Option<BuildError>): (r: Result<BuiltSession, BuildError>)
    // no transport: connect directly, and only that can fail
    ensures transport.None? ==>
      && (r.Ok? <==> connect(p).None?)
      && (r.Ok? ==> r.value == DirectSession(p))
      && (r.Err? ==> r.error == connect(p).value)
    // a transport: tunnel to this profile's own endpoint, keep the transport's guard
    ensures transport.Some? ==>
      var t := localTunnel(transport.value, p.address, p.port);
      && (t.Err? ==> r == Err(t.error))
      && (t.Ok? ==>
            var g := PpTunnelGuard(t.value, transport.value);
            && (r.Ok? <==> handshake(g, p).None?)
            && (r.Ok? ==> r.value == TunnelledSession(p, g))
            && (r.Err? ==> r.error == handshake(g, p).value))
  {
    match transport
    case None =>
      var failure := connect(p);
      if failure.Some? then Err(failure.value) else Ok(DirectSession(p))
    case Some(s) =>
      var stream := localTunnel(s, p.address, p.port);
      if stream.Err? then Err(stream.error)
      else
        var guarded := PpTunnelGuard(stream.value, s);
        var failure := handshake(guarded, p);
        if failure.Some? then Err(failure.value) else Ok(TunnelledSession(p, guarded))
  }
}
