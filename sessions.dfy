/**
 * Opening a session for a stored profile: the profile's transport, if it
 * names one, is opened first (recursively), and the new SSH session runs over
 * it; a profile without a transport runs over the local machine.
 */
module Sessions {
  import opened Wrappers
  import opened Formatting
  import opened Profiles

  /** A session and, for SSH, the session its traffic is carried by. */
  datatype Session = LocalSession | SshSession(config: SshProfile, transport: Session)

  datatype SessionError =
    | ProfileNotFound(id: string)     // the store has no profile under this id
    | ConnectFailed(reason: string)   // the local TCP connect failed

  /** What `open_shell` comes to: a failed tunnel, or the unfinished remainder (a panic). */
  datatype ShellOutcome = ShellFailed(error: SessionError) | ShellUnimplemented

  /** Sessions nested inside `s`, itself included. */
  function Depth(s: Session): nat
  {
    match s
    case LocalSession => 1
    case SshSession(_, t) => 1 + Depth(t)
  }

  /** Following transports from `id` meets a missing id or a profile without a transport
    * within `n` steps. */
  predicate ChainEnds(store: map<string, Profile>, id: string, n: nat)
    decreases n
  {
    id !in store || store[id].transport.None? ||
    (n > 0 && ChainEnds(store, store[id].transport.value, n - 1))
  }

  /** Every id along the chain from `id` is stored. */
  predicate ChainComplete(store: map<string, Profile>, id: string, n: nat)
    requires ChainEnds(store, id, n)
    decreases n
  {
    id in store &&
    (store[id].transport.None? || ChainComplete(store, store[id].transport.value, n - 1))
  }

  /** The number of stored profiles along the chain from `id`. */
  function ChainLength(store: map<string, Profile>, id: string, n: nat): nat
    requires ChainEnds(store, id, n)
    decreases n
  {
    if id !in store then 0
    else if store[id].transport.None? then 1
    else 1 + ChainLength(store, store[id].transport.value, n - 1)
  }

  /** The first id along the chain from `id` that the store lacks, if any. */
  function MissingLink(store: map<string, Profile>, id: string, n: nat): string
    requires ChainEnds(store, id, n)
    decreases n
  {
    if id !in store || store[id].transport.None? then id
    else MissingLink(store, store[id].transport.value, n - 1)
  }

  /** `Builder::open_session`.  The code has no cycle check: `n` bounds the length of the
    * transport chain, and the precondition is that the chain ends within it. */
  function OpenSession(store: map<string, Profile>, id: string, n: nat): (r: Result<Session, SessionError>)
    requires ChainEnds(store, id, n)
    ensures r.Ok? <==> ChainComplete(store, id, n)
    ensures r.Err? ==> r.error == ProfileNotFound(MissingLink(store, id, n))
    ensures r.Ok? ==> r.value.SshSession? && r.value.config == store[id].protocol.ssh
    ensures r.Ok? && store[id].transport.None? ==> r.value.transport == LocalSession
    ensures r.Ok? ==> Depth(r.value) == ChainLength(store, id, n) + 1
    decreases n
  {
    if id !in store then Err(ProfileNotFound(id))
    else
      var profile := store[id];
      var transport :=
        match profile.transport
        case None => Ok(LocalSession)
        case Some(t) => OpenSession(store, t, n - 1);
      if transport.Err? then Err(transport.error)
      else
        match profile.protocol
        case SSH(ssh) => Ok(SshSession(ssh, transport.value))
  }

  /** A profile reached through `t` is opened over the session opened for `t`. */
  lemma {:induction false} OpenSessionNests(store: map<string, Profile>, id: string, n: nat)
    requires ChainEnds(store, id, n) && id in store && store[id].transport.Some?
    ensures var t := store[id].transport.value;
      && ChainEnds(store, t, n - 1)
      && (OpenSession(store, id, n).Ok? <==> OpenSession(store, t, n - 1).Ok?)
      && (OpenSession(store, id, n).Ok? ==>
            OpenSession(store, id, n).value.transport == OpenSession(store, t, n - 1).value)
  {
  }

  /** A longer bound changes nothing: the result depends on the store and the id only. */
  lemma {:induction false} OpenSessionIgnoresBound(store: map<string, Profile>, id: string, n: nat, m: nat)
    requires ChainEnds(store, id, n) && n <= m
    ensures ChainEnds(store, id, m)
    ensures OpenSession(store, id, n) == OpenSession(store, id, m)
    decreases n
  {
    if id in store && store[id].transport.Some? {
      OpenSessionIgnoresBound(store, store[id].transport.value, n - 1, m - 1);
    }
  }

  /** A profile that is its own transport never resolves, whatever the bound. */
  lemma {:induction false} SelfTransportNeverEnds(store: map<string, Profile>, id: string, n: nat)
    requires id in store && store[id].transport == Some(id)
    ensures !ChainEnds(store, id, n)
    decreases n
  {
    if n > 0 {
      SelfTransportNeverEnds(store, id, n - 1);
    }
  }

  /** Two profiles that are each other's transport never resolve either. */
  lemma {:induction false} MutualTransportNeverEnds(store: map<string, Profile>, a: string, b: string, n: nat)
    requires a in store && b in store
    requires store[a].transport == Some(b) && store[b].transport == Some(a)
    ensures !ChainEnds(store, a, n) && !ChainEnds(store, b, n)
    decreases n
  {
    if n > 0 {
      MutualTransportNeverEnds(store, a, b, n - 1);
    }
  }

  /** `direct_tcpip`: an SSH session hands the request to its transport unchanged; the
    * local session makes the TCP connection, whose outcome `connect` gives. */
  function DirectTcpip<S>(s: Session, addr: string, port: u16, connect: (string, u16) -> Result<S, SessionError>): Result<S, SessionError>
  {
    match s
    case LocalSession => connect(addr, port)
    case SshSession(_, transport) => DirectTcpip(transport, addr, port, connect)
  }

  /** However deep the chain, a tunnel request reaches the local session with the same
    * address and port, and its outcome comes back unchanged. */
  lemma {:induction false} DirectTcpipReachesRoot<S>(s: Session, addr: string, port: u16, connect: (string, u16) -> Result<S, SessionError>)
    ensures DirectTcpip(s, addr, port, connect) == connect(addr, port)
  {
    match s
    case LocalSession =>
    case SshSession(_, transport) =>
      DirectTcpipReachesRoot(transport, addr, port, connect);
  }

  /** `open_shell`: an SSH session first asks its transport for a tunnel to its own
    * endpoint; an error there is returned, and past it the code is unfinished. */
  function OpenShell<S>(s: Session, connect: (string, u16) -> Result<S, SessionError>): ShellOutcome
  {
    match s
    case LocalSession => ShellUnimplemented
    case SshSession(config, transport) =>
      var tunnel := DirectTcpip(transport, config.address, config.port, connect);
      if tunnel.Err? then ShellFailed(tunnel.error) else ShellUnimplemented
  }

  /** A shell fails exactly when the connection to the session's own endpoint fails, and
    * with that error. */
  lemma OpenShellConnectsToOwnEndpoint<S>(config: SshProfile, transport: Session, connect: (string, u16) -> Result<S, SessionError>)
    ensures var c := connect(config.address, config.port);
      && (OpenShell(SshSession(config, transport), connect).ShellFailed? <==> c.Err?)
      && (c.Err? ==> OpenShell(SshSession(config, transport), connect) == ShellFailed(c.error))
  {
    DirectTcpipReachesRoot(transport, config.address, config.port, connect);
  }
}
