# pangpang core, modelled in Dafny

pangpang is a terminal and SSH session manager. Profiles describe SSH endpoints and may
name another profile as their *transport*, so that a session to one host is tunnelled
through a session to another. Profile stores hold the profiles keyed by id. Sessions
are opened by following the transport chain. Cached sessions are shared through
reference-counted guards. The GUI turns key events into the bytes a terminal expects,
lays out the emulator's cells, and keeps a bar of tabs.

This project models the parts of that system that can be stated precisely:

- **The readiness adapter** (`Readiness`, `AdapterErrors`). It is the retry loop around
  a non-blocking libssh2 call. On would-block it asks the engine which direction it is
  blocked on, waits for that readiness, and retries. The engine is a script of
  attempts, and the waits are recorded as a trace.
- **The two tunnel streams** (`TunnelStream`, `DrainStream`, over `Channels`). Both turn
  message-framed channel data into a byte stream. The newer one keeps a
  `read_buf[buffer_offset..buffer_end]` window. The older one drains a buffer from the
  front.
- **Sessions and profiles**:
  - guard release and eviction (`SessionGuard`);
  - recursive resolution along the transport chain (`Sessions`, `SessionBuild`);
  - profile ids and capacities (`Profiles`, `FlatProfile`, `Formatting`);
  - the in-memory and file-backed stores (`MockStorage`, `YamlStorage`).
- **The GUI encoders**:
  - key events to bytes, using ECMA-48 C0 controls and control sequences in xterm's
    cursor-key style (`KeyInput`). The event loop sends the key bytes as the code writes
    them; a corrected encoder sits beside it, and the two are proved to agree except on
    the keys listed under Findings;
  - the xterm 256-colour palette (`Colors`);
  - the render layout (`RenderLayout`);
  - the tab bar (`TabBar`).

Pure code is modelled as datatypes, functions and lemmas. Code that updates state in
place is modelled as classes whose methods are proved against specification functions.
These are the tunnel streams, the guard, the stores, the renderer and the tab view.
Loops that update variables are modelled as methods with loop invariants. These are the
retry loops, the read loops, the key-encoding loop, the layout loop and the tab loop.

Integers are unbounded except where the code relies on width:
- colour indices and key bytes are `bv8`;
- packed colours are `bv32`;
- ports are `u16`.

## Model

| member | source | states |
|---|---|---|
| Readiness.PollSsh2Fn | pangpang/src/async_ssh2/mod.rs:18-41 | the async retry loop's outcome, its readiness waits and its number of engine calls are exactly those of the reference run `AsyncRun` of the engine script |
| Readiness.AwaitBlockedDirection | pangpang/src/async_ssh2/mod.rs:25-36 | one readiness wait awaits read readiness for Inbound, write for Outbound, and both joined for Both, reporting a read error before a write error |
| Readiness.AsyncStopsAtFirstNonRetry | pangpang/src/async_ssh2/mod.rs:22-38 | the loop stops at the first attempt after which it does not retry. A success returns its value; another error is returned as `SSH2(e)` with no retry; a would-block with no direction panics; a would-block whose readiness wait fails returns that wait's error as `IO(e)` after the wait; a script that never stops leaves the call unfinished. Exactly the attempts up to the stopping one are made |
| Readiness.AsyncWaitsFollowDirections | pangpang/src/async_ssh2/mod.rs:26-32 | the waits are the concatenation, attempt by attempt, of the directions reported. Inbound waits only for read readiness, Outbound only for write readiness, Both for read then write |
| Readiness.AsyncNoBusyLoop | pangpang/src/async_ssh2/mod.rs:24-36 | every retry is preceded by at least one readiness wait: calls ≤ waits + 1 |
| Readiness.InboundOnceThenSuccess | pangpang/src/async_ssh2/mod.rs:22-27 | an inbound would-block followed by success waits once for read readiness, then returns the value after two calls |
| Readiness.PollBlockedDirection | pangpang/src/async_ssh2/mod.rs:52-63 | one readiness dispatch polls read for Inbound, write for Outbound, and for Both polls read first, polling write only if read is ready |
| Readiness.PollSsh2IoFn | pangpang/src/async_ssh2/mod.rs:44-74 | the poll-style retry loop's outcome, waits and call count are exactly those of the reference run `PollRun` |
| Readiness.PollRetriesOnlyWhenReady | pangpang/src/async_ssh2/mod.rs:48-71 | the loop retries only after the readiness poll is Ready(Ok). Pending is returned as not-ready, a readiness error is returned, a non-would-block error is returned without retry, and a missing direction panics |
| Readiness.PollWaitsFollowDirections | pangpang/src/async_ssh2/mod.rs:52-60 | the readiness polls made are the trace of the directions of the attempts made, in order |
| Readiness.BothChecksReadFirst | pangpang/src/async_ssh2/mod.rs:54-60 | with Both and read readiness not Ready, only read readiness is polled, and its Pending or error is the result |
| Readiness.PollNoBusyLoop | pangpang/src/async_ssh2/mod.rs:65-69 | every retry of the poll variant follows at least one readiness poll |
| AdapterErrors.IoFromSsh2 | pangpang/src/async_ssh2/error.rs:35 | converting a libssh2 error to an I/O error keeps its message, and gives kind WouldBlock exactly for `LIBSSH2_ERROR_EAGAIN` |
| AdapterErrors.ConversionsInjective | pangpang/src/async_ssh2/error.rs:20-30 | `From<ssh2::Error>` wraps into `SSH2` and `From<io::Error>` into `IO`, each unchanged and one to one; the two variants never coincide |
| AdapterErrors.IoRoundTrip | pangpang/src/async_ssh2/error.rs:26-39 | an I/O error converted into the adapter error and back is the original error |
| AdapterErrors.Ssh2IntoIo | pangpang/src/async_ssh2/error.rs:32-39 | the `SSH2` variant turns into the I/O error made from the inner error, whose message is the error's display |
| AdapterErrors.DisplayDelegates | pangpang/src/async_ssh2/error.rs:9-16 | display of either variant is the wrapped error's message |
| AdapterErrors.WouldBlockIsEagain | pangpang/src/async_ssh2/mod.rs:24 | a libssh2 error counts as would-block exactly when its code is `LIBSSH2_ERROR_EAGAIN` |
| Channels.PayloadsAt | pangpang/src/session/ssh/ssh_tunnel_stream.rs:83-100 | the bytes a channel carries split around any message: those before, its payload, those after |
| TunnelStream.SshTunnelStream.constructor | pangpang/src/session/ssh/ssh_tunnel_stream.rs:18-27 | a new stream has an empty buffer with `buffer_offset == buffer_end == 0` |
| TunnelStream.SshTunnelStream.Serve | pangpang/src/session/ssh/ssh_tunnel_stream.rs:75-81 | a read from a non-empty window copies exactly `min(remaining, capacity)` bytes from `read_buf[buffer_offset..]` and advances `buffer_offset` by that count, keeping `buffer_offset ≤ buffer_end ≤ len` |
| TunnelStream.SshTunnelStream.Store | pangpang/src/session/ssh/ssh_tunnel_stream.rs:85-94 | a `Data` payload becomes the window from offset 0 to its length, replacing a smaller buffer or overwriting the prefix of a larger one |
| TunnelStream.SshTunnelStream.Receive | pangpang/src/session/ssh/ssh_tunnel_stream.rs:83-103 | one channel poll with an empty window: Data fills the window, Eof and Close fail with UnexpectedEof, a finished channel gives Ok with no bytes, an empty one Pending, other kinds are skipped; the unread byte stream is unchanged |
| TunnelStream.SshTunnelStream.Refill | pangpang/src/session/ssh/ssh_tunnel_stream.rs:74-103 | polling with an empty window skips exactly the messages before `ReadStop` and is decided by the message at `ReadStop` (or its absence); no byte is lost |
| TunnelStream.SshTunnelStream.PollRead | pangpang/src/session/ssh/ssh_tunnel_stream.rs:68-106 | a read delivers at most `capacity` bytes, and the bytes delivered followed by those still unread are exactly those unread before. So across reads the output is the `Data` payloads in arrival order, none lost or repeated. A non-empty window is served without touching the channel, and an empty one is refilled by the first deciding message |
| TunnelStream.ReadStop | pangpang/src/session/ssh/ssh_tunnel_stream.rs:96-100 | the index of the first message that decides a read: every message before it is skipped, and the one at it is not |
| TunnelStream.SkippedCarryNothing | pangpang/src/session/ssh/ssh_tunnel_stream.rs:100 | skipped messages carry no payload bytes, so skipping them loses nothing |
| TunnelStream.SshTunnelStream.PollWrite | pangpang/src/session/ssh/ssh_tunnel_stream.rs:30-43 | a successful send appends the whole buffer to the channel and reports its full length; a failure or pending send appends nothing |
| TunnelStream.SshTunnelStream.PollFlush | pangpang/src/session/ssh/ssh_tunnel_stream.rs:45-50 | flush always succeeds at once |
| TunnelStream.SshTunnelStream.PollShutdown | pangpang/src/session/ssh/ssh_tunnel_stream.rs:52-64 | shutdown sends end-of-file and reports the send's outcome |
| DrainStream.SshTunnelStream.constructor | pangpang/src/ssh/ssh_tunnel_stream.rs:10-17 | a new stream starts with an empty `read_buf` |
| DrainStream.SshTunnelStream.Drain | pangpang/src/ssh/ssh_tunnel_stream.rs:64-71 | removes and returns exactly the first `min(len, capacity)` bytes of the buffer, keeping the rest in order |
| DrainStream.DrainStop | pangpang/src/ssh/ssh_tunnel_stream.rs:85-89 | the index of the first message that is not an unrecognised kind: all before it are skipped |
| DrainStream.SshTunnelStream.Receive | pangpang/src/ssh/ssh_tunnel_stream.rs:73-92 | one channel poll with an empty buffer: Data is buffered and its prefix served at once, the rest kept; Eof and Close fail with UnexpectedEof, a finished channel gives Ok with no bytes, an empty one Pending, other kinds are skipped |
| DrainStream.SshTunnelStream.ReadChannel | pangpang/src/ssh/ssh_tunnel_stream.rs:72-93 | with an empty buffer the read is decided by the message at `DrainStop` (or its absence), and no byte is lost or repeated |
| DrainStream.SshTunnelStream.PollRead | pangpang/src/ssh/ssh_tunnel_stream.rs:58-95 | a read delivers at most `capacity` bytes in arrival order; delivered plus still unread equals unread before; a non-empty buffer is drained without polling the channel |
| DrainStream.SshTunnelStream.PollWrite | pangpang/src/ssh/ssh_tunnel_stream.rs:20-33 | a successful send reports `buf.len()` and appends the whole buffer to the channel |
| DrainStream.SshTunnelStream.PollFlush | pangpang/src/ssh/ssh_tunnel_stream.rs:35-40 | flush always succeeds at once |
| DrainStream.SshTunnelStream.PollShutdown | pangpang/src/ssh/ssh_tunnel_stream.rs:42-54 | shutdown sends end-of-file and reports the send's outcome |
| SessionGuard.Release | pangpang/src/session/session_guard.rs:28-34 | releasing decrements that id's holder count by exactly one and removes the entry exactly when the count reaches zero; no other entry changes, so no entry ever holds a zero count |
| SessionGuard.ReleaseAllEvicts | pangpang/src/session/session_guard.rs:23-41 | after `n` releases of an entry with `n` or more holders, it is gone exactly when it had `n`, and otherwise holds `n` fewer with the same session; every other entry is kept with its value unchanged |
| SessionGuard.PpSessionGuard.constructor | pangpang/src/session/session_guard.rs:14-20 | a guard keeps the session, the cache id and the cache it was built with |
| SessionGuard.PpSessionGuard.Deref | pangpang/src/session/session_guard.rs:43-48 | dereferencing yields the same shared session the guard was built with |
| SessionGuard.PpSessionGuard.Drop | pangpang/src/session/session_guard.rs:23-41 | dropping a guard without an id never touches the cache; with an id absent from the cache it is a fault and nothing changes; otherwise the cache becomes `Release` of that id |
| Sessions.OpenSession | pangpang/src/session/mod.rs:33-45 | resolution succeeds exactly when the transport chain is complete in the store, and otherwise fails with `ProfileNotFound` of the first missing id in the chain. The result is an SSH session with the profile's own SSH config, over `LocalSession` when there is no transport, nested one level per link in the chain |
| Sessions.OpenSessionNests | pangpang/src/session/mod.rs:38-44 | a profile with transport `t` resolves exactly when `t` does, and its session's transport is `t`'s resolved session |
| Sessions.OpenSessionIgnoresBound | pangpang/src/session/mod.rs:33-45 | the recursion bound only makes termination explicit: any sufficient bound gives the same result |
| Sessions.SelfTransportNeverEnds | pangpang/src/session/mod.rs:38 | a profile that is its own transport never resolves: there is no cycle check |
| Sessions.MutualTransportNeverEnds | pangpang/src/session/mod.rs:38 | two profiles that are each other's transport never resolve |
| Sessions.DirectTcpipReachesRoot | pangpang/src/session/ssh.rs:17-19 | `direct_tcpip` forwards the same address and port down the chain, so the result is that of the root transport |
| Sessions.OpenShellConnectsToOwnEndpoint | pangpang/src/session/ssh.rs:12-15 | `open_shell` first asks its transport for a tunnel to the session's own address and port, and an error there is the result |
| SessionBuild.DefaultConfig | pangpang/src/session/ssh/profile.rs:17-26 | the default profile is `localhost`, `root`, `123456`, port 22 |
| SessionBuild.Build | pangpang/src/session/ssh/profile.rs:30-40 | without a transport the session connects directly and only that can fail. With one, it opens a local tunnel on the transport to this profile's own address and port, and the new session holds the tunnel together with the transport guard. Tunnel and handshake errors propagate |
| Profiles.Id | pangpang/src/profile/mod.rs:25-30 | every id starts with `ssh://` |
| Profiles.SshIdRoundTrip | pangpang/src/profile/ssh_profile.rs:15-19 | `user@address:port` with the port in decimal can be read back into the username, address and port, when the username has no `@` |
| Profiles.IdRoundTrip | pangpang/src/profile/mod.rs:25-30 | the id is `ssh://` followed by the SSH id, and reads back into username, address and port |
| Profiles.IdIdentifiesEndpoint | pangpang/src/profile/mod.rs:25-30 | two profiles (usernames without `@`) have equal ids exactly when username, address and port are equal |
| Profiles.IdIgnoresTransport | pangpang/src/profile/mod.rs:15-30 | profiles differing only in transport share an id |
| Profiles.SshIdIgnoresCredentials | pangpang/src/profile/ssh_profile.rs:7-19 | the SSH id ignores the authentication method and the host key |
| Profiles.IdCollidesOnAtInUsername | pangpang/src/profile/ssh_profile.rs:17 | without the `@` restriction, two different endpoints can share an id |
| Formatting.Decimal | pangpang/src/profile/ssh_profile.rs:17 | a port is rendered as a non-empty run of decimal digits with no leading zero |
| Formatting.ParseDecimalOfDecimal | pangpang/src/profile/ssh_profile.rs:17 | the decimal rendering of a number reads back as that number |
| FlatProfile.CapacityFlagsAreBits | pangpang/src/profile.rs:6-12 | `SESSION_CACHE`, `OPEN_PTY` and `OPEN_TUNNEL` are distinct single bits, and their union is 7 |
| FlatProfile.Id | pangpang/src/profile.rs:39-41 | the id starts with the username followed by `@`, with no scheme |
| FlatProfile.IdMatchesEndpointId | pangpang/src/profile.rs:39-41 | the flat id is the SSH id of the same endpoint, the scheme-prefixed id minus `ssh://`, and reads back into username, address and port |
| FlatProfile.IdIgnoresRouting | pangpang/src/profile.rs:17-23 | the id ignores transport and protocol |
| FlatProfile.ProfileCapacity | pangpang/src/profile.rs:42-46 | every SSH profile has the full capacity set, in particular `SESSION_CACHE` |
| FlatProfile.Clone | pangpang/src/profile.rs:24-36 | the clone equals the original field by field, so it has the same id and capacity |
| MockStorage.SeedIds | pangpang/src/storage/mock.rs:10-32 | the two seeded profiles are stored under `ssh://sun@localhost:22` and `ssh://root@localhost:6022` |
| MockStorage.SeedChainIsAcyclic | pangpang/src/storage/mock.rs:23-30 | the seeded transport graph is a chain of length two; resolving the root profile gives its session over the sun session over `LocalSession` |
| MockStorage.Storage.Default | pangpang/src/storage/mock.rs:10-33 | the default store holds exactly the two seeded profiles, each under its id |
| MockStorage.Storage.Get | pangpang/src/storage/mock.rs:37-39 | `get` of a present id returns the stored profile, whose id is the key; of an absent id it fails |
| MockStorage.Storage.Put | pangpang/src/storage/mock.rs:41-44 | `put` stores the profile under its id, overwriting, leaves every other key unchanged and succeeds; a later `get` of that id returns it |
| MockStorage.Storage.Delete | pangpang/src/storage/mock.rs:46-48 | `delete` of a present id returns that profile and removes it; of an absent id it fails and changes nothing |
| YamlStorage.KeyedKeysById | pangpang/src/storage/yaml.rs:16-17 | loading stores each profile under its own id |
| YamlStorage.KeyedDomain | pangpang/src/storage/yaml.rs:16-17 | loading keeps exactly the ids of the profiles read |
| YamlStorage.KeyedHoldsLast | pangpang/src/storage/yaml.rs:16-17 | an id is bound to the last profile read with that id |
| YamlStorage.LaterDuplicateWins | pangpang/src/storage/yaml.rs:16-17 | of two profiles with the same id, the later one is kept |
| YamlStorage.Storage.Load | pangpang/src/storage/yaml.rs:11-23 | the insertion loop builds exactly the keyed map of the profiles read |
| YamlStorage.Storage.Get | pangpang/src/storage/yaml.rs:26-28 | `get` of a present id returns its profile; of an absent id it fails with `ProfileNotFound(id)` |
| YamlStorage.Storage.Put | pangpang/src/storage/yaml.rs:30-33 | `put` inserts under the profile's id, overwriting, and returns the flush's result |
| YamlStorage.Storage.Remove | pangpang/src/storage/yaml.rs:35-39 | `remove` of an absent id fails with `ProfileNotFound` before any flush and leaves the map unchanged. A present id is deleted, and its profile is returned if the flush succeeds |
| YamlStorage.Storage.Iter | pangpang/src/storage/yaml.rs:41-43 | iteration yields exactly the stored profiles, one per id |
| YamlStorage.Storage.Flush | pangpang/src/storage/yaml.rs:45-53 | flushing reports the write's failure, if any |
| YamlStorage.ValuesMatchKeys | pangpang/src/storage/yaml.rs:41-43 | when every profile sits under its own id there are as many profiles as ids |
| KeyInput.Numeric | pangpang_gui/src/terminal_view.rs:35-52 | the modifier parameter is `'1' + shift + 2·alt + 4·command`, always in `'1'..'8'` |
| KeyInput.NumericRoundTrip | pangpang_gui/src/terminal_view.rs:35-52 | the parameter determines shift, alt and command exactly, and ignores ctrl and the mac command key |
| KeyInput.CursorMode | pangpang_gui/src/terminal_view.rs:90-93 | the cursor-key introducer is `O` exactly in application-cursor mode, otherwise `[` |
| KeyInput.EncodersDiffer | pangpang_gui/src/terminal_view.rs:99-152 | the code as written and the corrected encoder differ exactly on modified arrows and on shift-Tab |
| KeyInput.ArrowAsWrittenMalformed | pangpang_gui/src/terminal_view.rs:99-134 | a modified arrow as written is a complete control sequence followed by a stray final letter, so the whole is not one control sequence |
| KeyInput.ShiftTabAsWrittenLacksEsc | pangpang_gui/src/terminal_view.rs:146-149 | shift-Tab as written is `[ Z` with no ESC, and neither byte is a control |
| KeyInput.EncodingsWellFormed | pangpang_gui/src/terminal_view.rs:99-184 | every key encodes as one ECMA-48 control sequence (arrows, Delete, shift-Tab), as `ESC O` plus a letter (unmodified arrows in application mode), or as C0 controls only |
| KeyInput.ModifiedKeyCarriesParameter | pangpang_gui/src/terminal_view.rs:99-174 | in both the code as written and the corrected encoder, a modified arrow or Delete starts `ESC [ d ;` and then the modifier parameter, from which shift, alt and command read back. The corrected encoding ends right after it with the final byte; as written, a modified arrow puts the cursor-mode byte between the parameter and the letter, and Delete ends with `~` |
| KeyInput.EncodedAppend | pangpang_gui/src/terminal_view.rs:94-197 | under either key encoder, encoding a concatenation of events is the encoding of the first part followed by that of the second from the modifier state the first left |
| KeyInput.FinalStateIsLastPressed | pangpang_gui/src/terminal_view.rs:96-97 | the modifier state after a run of events is that of the last pressed key |
| KeyInput.TextFollowsLastKey | pangpang_gui/src/terminal_view.rs:188-194 | under either key encoder, text is appended exactly when the last pressed key had no modifiers or only shift |
| KeyInput.ReleasedKeyIgnored | pangpang_gui/src/terminal_view.rs:96 | under either key encoder, a released key event changes neither the bytes nor the modifier state |
| KeyInput.Push | pangpang_gui/src/terminal_view.rs:95-196 | one event appends its encoding as the code writes it to the input sequence and moves to the next modifier state |
| KeyInput.InputState | pangpang_gui/src/terminal_view.rs:87-201 | the bytes sent are exactly the encoding, as the code writes it, of the events from the empty modifier state, and an input message is sent only when they are non-empty |
| KeyInput.EncodersAgreeElsewhere | pangpang_gui/src/terminal_view.rs:94-197 | on a run of events with no modified arrow and no pressed shift-Tab, the bytes the code as written sends are exactly the corrected ones |
| Colors.SystemColour | pangpang_gui/src/terminal_view.rs:303-309 | indices below 16 are the system table's colours |
| Colors.CubeColour | pangpang_gui/src/terminal_view.rs:310-312 | indices 16 to 231 give the cube levels `o/36`, `o/6%6`, `o%6` of `o = i - 16` for red, green and blue |
| Colors.CubeLevels | pangpang_gui/src/terminal_view/terminal_render.rs:139-144 | packing three cube levels into a word and unpacking it gives levels from `{0,95,135,175,215,255}` |
| Colors.GreyColour | pangpang_gui/src/terminal_view.rs:313-315 | indices from 232 give a grey with every component `8 + 10·(i-232)` |
| Colors.PackUnpack | pangpang_gui/src/terminal_view.rs:317 | packing three bytes into `0xRRGGBB` and unpacking gives them back |
| Colors.PaletteIndexRoundTrip | pangpang_gui/src/terminal_view/terminal_render.rs:134-150 | every index from 16 on can be read back from its colour: the cube and the ramp give 240 distinct colours |
| RenderLayout.BackgroundPriority | pangpang_gui/src/terminal_view/terminal_render.rs:80-88 | a selected cell's background is DARK_GRAY, overriding the cursor colour; the cursor cell's is the Cursor colour; any other cell keeps its own |
| RenderLayout.LayoutKeepsText | pangpang_gui/src/terminal_view/terminal_render.rs:66-90 | the glyphs of the layout are exactly the characters of the non-spacer cells in order: spacers contribute nothing, every other cell one glyph |
| RenderLayout.LayoutBreaks | pangpang_gui/src/terminal_view/terminal_render.rs:58-65 | the layout has one line break per column-0 cell other than the first cell |
| RenderLayout.TerminalRender.constructor | pangpang_gui/src/terminal_view/terminal_render.rs:21-30 | a new renderer is visible with an empty layout and zeroed mode and cursor |
| RenderLayout.TerminalRender.Draw | pangpang_gui/src/terminal_view/terminal_render.rs:50-94 | a hidden view changes nothing and requests no repaint. A visible draw copies the mode, the cursor `(column, line)` and the display offset, rebuilds the layout from empty as `Layout` of the cells, and requests exactly one repaint. A cursor on a negative line stops after the mode was copied |
| RenderLayout.TerminalRender.AppendCell | pangpang_gui/src/terminal_view/terminal_render.rs:58-90 | one cell appends its line break, if it starts a later line, and its glyph, if it is not a spacer |
| TabBar.LastSet | pangpang_gui/src/tab_view.rs:33-43 | the last flagged position, and none exactly when no flag is set |
| TabBar.RemoveAt | pangpang_gui/src/tab_view.rs:44-45 | removal takes one item out and the others keep their relative order |
| TabBar.TabView.constructor | pangpang_gui/src/tab_view.rs:15-20 | a new tab view is empty with `selected == 0` |
| TabBar.TabView.Insert | pangpang_gui/src/tab_view.rs:22-25 | insert appends at the end and selects the new last tab, keeping the selection in range |
| TabBar.TabView.Shown | pangpang_gui/src/tab_view.rs:62-64 | the selected tab is shown, and nothing is shown exactly when the bar is empty |
| TabBar.TabView.PaintTabBar | pangpang_gui/src/tab_view.rs:27-52 | the last click selects; at most one tab (the last one flagged) is removed with the others in order; the selection is clamped to the last tab only if it fell past the end, never shifted otherwise; the selection stays in range |

## Left out

- pangpang/src/forward/http_proxy.rs is not part of this model. It is a hyper server and byte splicing.
- Network and protocol wrappers are not part of this model: the libssh2 session, channel, stream and listener wrappers; the thrussh client, handler and session modules; the local TCP connect; the pty and pty guard. The thrussh channel is modelled only as a queue of incoming messages plus a flag for a finished sender (`Channels.Channel`). Sends take their outcome as a parameter.
- Connecting, tunnelling and handshaking in `Build`, `OpenShell` and `DirectTcpip` are function parameters. Their results are given, not computed.
- The session manager's cache path (in-flight deduplication, taking a reference) is not part of this model. Only the release half in session_guard.rs is modelled.
- The `tokio::spawn` in the guard's drop is modelled as one atomic step (`PpSessionGuard.Drop`), and the `unreachable!` there as a `fault` result.
- `SshSession::new` is the `Sessions.SshSession` datatype constructor: it stores the config and owns the transport.
- `open_shell` after its first step ends in `todo!()`, and `forward_listen` is `todo!()`. Neither is modelled past the first call.
- The recursion in `open_session` has no cycle check. `Sessions.OpenSession` takes a bound `n` and requires the chain to end within it (`ChainEnds`), which is exactly the acyclic case.
- profile.rs names `ssh::SshProfile`, which is not part of this model. Its fields are taken to be those of `SessionBuild.SshConfig`.
- pangpang/src/errors.rs is not part of this model. Its `Display` calls itself.
- File I/O in `YamlStorage::default` and `flush` is not modelled. Loading starts from the list of profiles read, and a flush's failure is a parameter. The order in which `iter` yields profiles is not modelled: `Iter` returns a set.
- The readiness adapter's engine is a finite script of attempts. A script that runs out before the call stops gives `Unfinished`, standing for a task that keeps being polled.
- `AdapterErrors.IoFromSsh2`: libssh2's table of error codes to I/O error kinds is reduced to its one case the adapter depends on, EAGAIN to WouldBlock.
- egui's `Modifiers` helpers (`any`, `is_none`, `shift_only`) are modelled by their documented meaning over the five modifier flags.
- egui's named `Color32` constants are kept symbolic. Alacritty's selection range is modelled as a set of points.
- Text events are modelled as their UTF-8 bytes.
- The stroke width, text style, font and the float geometry of the layout are not modelled.
- The resize arithmetic and line-wrap rules in `TerminalView::draw` are not modelled.
- The panic when a negative cursor line is cast to an unsigned position is modelled as `Draw`'s `panicked` result.
- The repaint request is modelled as a counter.
- `TunnelStream.SshTunnelStream.PollWrite`: a send on the channel is modelled as all-or-nothing. The stream polls the send future once and drops it when it is pending, so whether a dropped send already put part of the buffer on the wire is not modelled.
- `Sessions.OpenSession`: the store's lookup error is modelled as `ProfileNotFound` carrying the missing id. The mock store's own error is a bare "not found" message with no id (pangpang/src/storage/mock.rs:37-39).
- `Channels.StreamError`: the conversion of the stream's error type into an I/O error is not part of this model; it is taken to give kind `Other` with the error's reason as message.
- The TUI, the GUI menus and panels, and the prototype terminal modules are not part of this model.

## Findings

| source | as written | input that shows it | evidently intended | confidence | as-written member | corrected member |
|---|---|---|---|---|---|---|
| pangpang_gui/src/terminal_view.rs:99-134 | a modified arrow pushes `ESC [ 1 ; n`, then the cursor-mode byte, then the letter | ArrowUp with shift gives `ESC [ 1 ; 2 [ A` | `ESC [ 1 ; n A`, one control sequence as xterm sends | not executed | KeyInput.ArrowAsWrittenMalformed | KeyInput.EncodingsWellFormed |
| pangpang_gui/src/terminal_view.rs:146-149 | shift-Tab pushes `[ Z` with no ESC | Tab with shift gives `[ Z` | `ESC [ Z`, the back-tab control sequence | not executed | KeyInput.ShiftTabAsWrittenLacksEsc | KeyInput.EncodingsWellFormed |
