# Remote assistance tool: verified model

A Dafny model of the parts of a remote assistance tool where correctness is subtle, with machine-checked proofs about
all inputs, all runs and all interleavings. The tool connects a machine that is being helped (share) with a helper
(help) through a relay server or a peer-to-peer UDP tunnel, and runs tools such as exec and file transfer over it.

| files | what they model |
|---|---|
| `Tunnel`, `TunnelRuns`, `TunnelOrder`, `TunnelProgress`, `TunnelLimits` | the reliable UDP tunnel: its object, and every run of two endpoints over a network that loses, repeats, delays and reorders |
| `SessionSpec`, `SessionInvariant`, `SessionRuns`, `SessionPairing`, `SessionLifetime`, `TakeoverStorm`, `StormLimit`, `SessionManagers` | the relay's session table: operations on values, what they keep, runs with a clock, and the object with its four indexes |
| `DataPlane`, `SourceAdmission`, `RelayTable` | the relay's UDP data plane, the two-lock protocol between the session table and the relay table, and who is admitted to it |
| `RateLimit`, `Limiters` | token buckets and the per-key limiter with its LRU list |
| `Replay` | the anti-replay window |
| `Utf8`, `Truncate`, `TruncateMeaning`, `OemText`, `CodePages` | command output: UTF-8 scanning, truncation, the bounded writer, the decoding writer, text in a code page, and the whole pipeline of exec |
| `WinArgs` | Windows command lines |
| `Aad`, `ToolStream`, `StreamSchedules`, `StreamDelivery`, `Bridge` | the tool channel: associated data, streamed output, callers and disconnection |
| `Stun`, `StunCodec` | the STUN codec (sections 6, 15, 15.1 and 15.2 of RFC 5389) |
| `Transfer`, `TransferRecovery`, `TransferLoops` | upload and download with resume |
| `P2PManager` | who owns the tunnel and the socket |
| `Bytes`, `Options`, `Sets` | shared vocabulary |

Objects that the program updates in place are classes whose methods are the program's own sequences of updates and
loops, each proved to have exactly the effect of a function on values. Concurrent code is a state machine with one step
per critical section, channel operation or access to shared state. Clocks, networks, randomness, code page tables, compression
and sealing are parameters; sealing is ideal (a ciphertext opens only under the key and associated data it was sealed
with) and compression only has to decompress to what was compressed.

## Where the code does less than it promises

Each entry names the lemma at the failing input or run, and the condition under which the promise holds.

- Tunnel order: after a local Close, `deliverToChannel` may drop the chunk it holds and still hand over the next one
  (`TunnelLimits.CloseBreaksPrefix`). The chunks handed over are the first ones sent, in order and without a gap, if and
  only if none was handed over after one had been dropped (`TunnelOrder.InOrderIff`); what was read before Close is
  always a prefix (`TunnelOrder.ReadBeforeClose`).
- Tunnel loss: the acknowledgement goes out before the capacity check, so a packet that meets a full receive buffer is
  acknowledged and dropped (`TunnelLimits.FullBufferLosesData`) and never sent again (`TunnelOrder.NeverSentAgain`).
  A chunk that is neither in the window nor arrived is always one that met a full buffer
  (`TunnelRuns.EveryChunkAccounted`), so without such a packet nothing is lost (`TunnelRuns.NoLoss`).
- `Write` of the tunnel: when the socket refuses a chunk, that chunk is already queued and will be retransmitted; the
  returned count leaves it out (`Tunnel.UDPTunnel.Write`: `SendFailed` means `n < |b|` and the chunk at `n` was sent).
- Limiter: the bound on key churn holds in every run if and only if `rate * idleExpiry >= burst`
  (`RateLimit.BoundIffRefillsInTime`).
- A negative rate drains a bucket, where the comment says that it never refills (`RateLimit.NegativeRateRefuses`): time
  takes tokens away if and only if the rate is negative (`RateLimit.DrainsIff`).
- Anti-replay: the clearing loop never ends for the largest uint64 less than a window above the highest id; it ends if
  and only if the id is not that number (`Replay.LoopEndsIff`), and `Replay.ReplayGuard.Accept` excludes that call and
  no other.
- `boundedStream`: between writes the tail holds fewer than `2 * max` bytes, but while a write is appended it peaks at
  exactly `3 * max - 2` (`Truncate.PeakExact`). The comment says `2 * max`, which some write exceeds if and only if `max`
  is at least 3, and a given write if and only if it is shorter than `max` and does not fit
  (`Truncate.PeakExceedsIff`).
- Streams: the waiting call may see success before the last callback (`StreamSchedules.SuccessBeforeCallback` with two
  read loops, `StreamSchedules.SuccessBeforeLateCallback` with one) or before a frame that failed to open is counted
  (`StreamSchedules.SuccessBeforeDamage`). Success can be trusted at every moment if and only if handlers run one at a
  time and nothing is taken up after the terminator (`StreamSchedules.TruthfulIff`), as on one connection that keeps the
  order.
- STUN: a message whose padded attributes need 65536 bytes or more loses attributes, any other comes back whole
  (`Stun.RoundTripIff`). Reading an address slices past its end if and only if the first address attribute claims IPv6
  with 8 to 19 bytes (`Stun.SlicesPastEndIff`).
- Associated data of responses: two responses can share it once error codes may have 2^32 bytes
  (`Aad.RespAmbiguous`); below any limit of at most 2^32 they never do (`Aad.RespInjectiveIff`).
- Windows arguments: an argument with a NUL would make the elevated child start without arguments; the child receives
  the arguments if and only if none holds one (`WinArgs.ReceivedIff`). The only caller passes its own command line,
  where no argument can hold a NUL, so the failing case does not arise there.
- Upload: a lost truncation followed by a resume builds on what the remote file held before
  (`Transfer.StaleRemoteSurvives`), so success means equality under every pattern of failures if and only if the remote
  file was absent or a prefix to begin with (`Transfer.UploadExactIff`).
- Takeover storms: with a cooldown shorter than the window a refused storm resumes too early (`StormLimit.TooMany`); the
  bound holds in every run if and only if the cooldown is at least as long as the window (`StormLimit.StormBoundIff`).
- A refused takeover usually changes the session, by recording the conflict; it leaves the session as it was if and only
  if it was refused in a cooldown that already ends a full cooldown from now
  (`SessionManagers.SessionManager.ChargeTakeover`).

## Model

| member | source | states |
|---|---|---|
| `Tunnel.CompressionRoundTrip` | internal/p2p/tunnel.go:57-111 | decompressData undoes compressData for every input, whether or not compressing paid off |
| `Tunnel.WireRoundTrip` | internal/p2p/tunnel.go:256-264 | every packet the tunnel makes fits the 1400-byte receive buffer and parses back to itself |
| `Tunnel.WireBytes` | internal/p2p/tunnel.go:254-264 | type byte, number in network byte order, payload |
| `Tunnel.ChunksConcat` | internal/p2p/tunnel.go:237-292 | cutting into chunks loses nothing and every chunk has 1 to 1394 bytes |
| `Tunnel.UDPTunnel.NumberChunk` | internal/p2p/tunnel.go:258-259 | a chunk takes the next sequence number, wrapping at 2^32 |
| `Tunnel.UDPTunnel.QueueChunk` | internal/p2p/tunnel.go:266-286 | a chunk enters the window under its number, goes out and is logged |
| `Tunnel.UDPTunnel.Write` | internal/p2p/tunnel.go:237-292 | all sent means the whole argument; end of file only on a closed tunnel, waiting only with a full window, a send error exactly when the socket refused a chunk that was tried; the socket got exactly one packet per chunk queued, numbered on from the next number; whatever has left the window was acknowledged; what was queued and what is left are together exactly the chunks of the argument, on every way out; after a refused send the count leaves out a chunk that was queued; the window stays within its limit; a closed tunnel sends nothing |
| `Tunnel.PacketsMean` | internal/p2p/tunnel.go:254-285 | these packets carry consecutive numbers modulo 2^32 and each decompresses to its chunk |
| `Tunnel.UDPTunnel.OnAck` | internal/p2p/tunnel.go:363-370 | an acknowledgement removes that number from the window and nothing else |
| `Tunnel.UDPTunnel.TakePacket` | internal/p2p/tunnel.go:372-379 | the acknowledgement goes out before the packet is looked at |
| `Tunnel.UDPTunnel.ProcessPacket` | internal/p2p/tunnel.go:381-411 | in order: delivered; ahead: buffered once, while there is room; otherwise dropped |
| `Tunnel.UDPTunnel.DeliverLoop` | internal/p2p/tunnel.go:389-423 | delivers the chunk in hand and every buffered one that follows without a gap |
| `Tunnel.UDPTunnel.Read` | internal/p2p/tunnel.go:205-234 | returns the next bytes, as many as there are or fit, and keeps what did not fit for the next call |
| `TunnelRuns.Safety` | internal/p2p/tunnel.go:205-292 | in every run of fewer than 2^32 packets each way, what one side has read is a prefix of what the other wrote, until it closes; afterwards still a selection of the chunks in order without repeats |
| `TunnelRuns.Bounds` | internal/p2p/tunnel.go:249-281 | in every run window, receive buffer, channel and datagrams stay within their limits |
| `TunnelRuns.NoLoss` | internal/p2p/tunnel.go:318-423 | in every open run that never met a full receive buffer, each chunk is in the window or has arrived; an empty window means that everything has and that the two counters agree |
| `TunnelRuns.EveryChunkAccounted` | internal/p2p/tunnel.go:363-411 | in every run a chunk that has left the window has arrived or met a full receive buffer |
| `TunnelRuns.RunKeeps` | internal/p2p/tunnel.go:318-469 | the joint invariant of both endpoints and both directions of the network, over every run |
| `TunnelOrder.InOrderIff` | internal/p2p/tunnel.go:389-423 | in every run, closed or not, the chunks handed over are the first ones sent, in order and without a gap, if and only if none was handed over after one had been dropped |
| `TunnelOrder.PrefixUnlessSkipped` | internal/p2p/tunnel.go:205-234 | so what is read stays a prefix of what was written, also after Close, unless a chunk was skipped |
| `TunnelOrder.ReadBeforeClose` | internal/p2p/tunnel.go:295-310 | what was read before a local Close is, in every continuation, the beginning of what is read and of what is written in all |
| `TunnelOrder.ClosedSendsNoMore` | internal/p2p/tunnel.go:266-310 | after Close nothing enters the window, in any continuation |
| `TunnelOrder.NeverSentAgain` | internal/p2p/tunnel.go:363-370 | a chunk that has left the window is never sent again, in any continuation |
| `TunnelProgress.AllCanBeRead` | internal/p2p/tunnel.go:318-469 | no deadlock: every reachable open state that has dropped nothing and has room in its buffer has a continuation in which the reader has read every byte written and, with recvLoop between packets, the window is empty |
| `TunnelLimits.CloseBreaksPrefix` | internal/p2p/tunnel.go:418-423 | a run in which closing makes the reader skip a byte |
| `TunnelLimits.FullBufferLosesData` | internal/p2p/tunnel.go:372-411 | a run in which an acknowledged chunk is dropped because the receive buffer was full, is not in the window and has not arrived |
| `SessionInvariant.CreateKeeps` | internal/relay/session.go:151-209 | creating a session keeps the index and quota invariant |
| `SessionInvariant.ReuseKeeps` | internal/relay/session.go:265-336 | so does a takeover, granted or refused |
| `SessionInvariant.MarkReadyKeeps` | internal/relay/session.go:365-374 | so does marking the share ready |
| `SessionInvariant.JoinKeeps` | internal/relay/session.go:386-433 | so does a join, also one that replaces a help inside the debounce |
| `SessionInvariant.RollbackKeeps` | internal/relay/session.go:437-451 | so does rolling a join back |
| `SessionInvariant.ActivateKeeps` | internal/relay/session.go:456-475 | so does activating the data plane |
| `SessionInvariant.DeleteKeeps` | internal/relay/session.go:578-613 | so does deleting a session: no index and no count refers to it any more |
| `SessionInvariant.DisconnectKeeps` | internal/relay/session.go:648-712 | so does the departure of either side |
| `SessionInvariant.DebounceKeeps` | internal/relay/session.go:667-684 | so does the debounce callback |
| `SessionInvariant.CleanOneKeeps` | internal/relay/session.go:736-776 | so does cleaning up |
| `SessionInvariant.UpdateAddrKeeps` | internal/relay/session.go:792-827 | so does recording addresses |
| `SessionInvariant.FindPeerStaysInside` | internal/relay/session.go:844-859 | the peer found is the other side of the one session the connection is bound to, and finds its way back |
| `SessionInvariant.FindPeerFinds` | internal/relay/session.go:844-859 | a bound share gets the session's help and a connected help its share |
| `SessionPairing.MayCreateIff` | internal/relay/session.go:155-165 | a registration is admitted exactly while the table and the address have room, counted in live sessions |
| `SessionPairing.CreatedCanBeJoined` | internal/relay/session.go:386-433 | the code of a new session lets a helper in until it expires, once the share is ready |
| `SessionPairing.PairingWorks` | internal/relay/session.go:386-475 | a join that is let in can be activated; then the session is active, its two sides find each other, and no other session has changed |
| `SessionPairing.RollbackUndoesJoin` | internal/relay/session.go:437-451 | a rolled-back join leaves all routes as they were and the session open to the next helper |
| `SessionPairing.TakeoverBinds` | internal/relay/session.go:303-336 | after a takeover only the newcomer is routed to the session, and nobody can join before it is ready |
| `SessionPairing.HelpMayRejoin` | internal/relay/session.go:656-686 | a help that drops is unrouted at once, and its code lets it in again without waiting for the debounce, throughout the grace |
| `SessionPairing.ShareLeaves` | internal/relay/session.go:688-710 | a share that drops leaves its help bound without a peer, and nobody can join |
| `SessionPairing.ShareMayReturn` | internal/relay/session.go:265-336 | a share that comes back under its client ID while its session lives gets it back |
| `SessionPairing.CreatedIsFound` | internal/relay/session.go:265-286 | a session whose share has dropped is found under the client ID it was registered with |
| `SessionPairing.DebounceClears` | internal/relay/session.go:667-684 | the debounce lets go of the help that left and of no other |
| `SessionPairing.ClosedIsForgotten` | internal/relay/session.go:578-613 | no code, client or connection leads to a closed session, and its sides have no peer |
| `SessionPairing.CleanupMeans` | internal/relay/session.go:736-776 | nothing happens before the expiry; after it a session in use loses its code and no more, any other is removed |
| `SessionRuns.IndexesAgree` | internal/relay/session.go:108-127 | after every sequence of operations with fresh connection IDs: byConnID maps exactly the connected share and help of live sessions, byCode and byClientID only live sessions with that key, each count is the number of live counted sessions from that address |
| `SessionRuns.QuotaOverRuns` | internal/relay/session.go:151-209 | under fixed limits, after every run no address holds more live counted sessions than its limit and the table no more than the total |
| `SessionLifetime.Lifetime` | internal/relay/session.go:721-776 | ExpiresAt never decreases; a session goes only by an explicit close or by a cleanup that finds it expired with a side missing |
| `SessionLifetime.Survives` | internal/relay/session.go:736-776 | a session survives every run that ends before it expires |
| `SessionLifetime.GraceHolds` | internal/relay/session.go:648-732 | after either side leaves an in-use session, it survives every run without a close until the grace has passed |
| `SessionLifetime.CodeGraceHolds` | internal/relay/session.go:721-732 | and with unique codes its code leads to it throughout, even if a cleanup had taken the code before |
| `TakeoverStorm.RunTracked` | internal/relay/session.go:310-362 | over every run the session's record is the recent tail of its true displacement history |
| `StormLimit.StormBoundIff` | internal/relay/session.go:282-362 | between true departures any half-open window sees at most three displacements of an online share, in every run, if and only if the cooldown is at least as long as the window |
| `StormLimit.TooMany` | internal/relay/session.go:288-300 | a run with four displacements in a window, for every cooldown shorter than the window |
| `TakeoverStorm.DisplacedIsForgotten` | internal/relay/session.go:648-655 | the later disconnect of a displaced share changes nothing, however late it comes |
| `SessionManagers.SessionManager.CreateSession` | internal/relay/session.go:151-209 | exactly the specified creation, or a refusal that changes nothing, with all four indexes kept |
| `SessionManagers.SessionManager.RecordLiveReplace` | internal/relay/session.go:349-362 | the filtering loop keeps exactly the entries inside the window, in order, and adds now |
| `SessionManagers.SessionManager.ChargeTakeover` | internal/relay/session.go:288-300 | the conflict record after an attempt and whether it is refused; a refusal sets the cooldown from now and changes nothing if and only if that was already so |
| `SessionManagers.SessionManager.ReuseSessionByClientID` | internal/relay/session.go:265-336 | exactly the specified takeover |
| `SessionManagers.SessionManager.MarkShareReady` | internal/relay/session.go:365-374 | succeeds exactly for the expected share, and changes only that flag |
| `SessionManagers.SessionManager.JoinSession` | internal/relay/session.go:386-433 | exactly the specified join, with its reason on refusal |
| `SessionManagers.SessionManager.RollbackJoin` | internal/relay/session.go:437-451 | undoes a join only while that help is still the one bound |
| `SessionManagers.SessionManager.ActivateDataPlane` | internal/relay/session.go:456-475 | succeeds exactly when the expected share and help are bound and no disconnect is pending, and changes only that flag |
| `SessionManagers.SessionManager.IsActiveDataSource` | internal/relay/session.go:506-547 | the session is active and knows the address, that is (`SourceAdmission.AcceptedIff`) it was observed for one of the two sides or is in its last report |
| `SessionManagers.SessionManager.DeleteSession` | internal/relay/session.go:564-613 | removes the session, its index entries if they still point to it, and its count |
| `SessionManagers.SessionManager.DisconnectClient` | internal/relay/session.go:648-732 | exactly the specified departure of share or help, grace included |
| `SessionManagers.SessionManager.DebounceFired` | internal/relay/session.go:667-684 | drops the help that is still pending, and nothing if it has been replaced |
| `SessionManagers.SessionManager.CleanupExpired` | internal/relay/session.go:736-776 | removes and reports exactly the expired sessions with a side missing, in whatever order they are visited |
| `SessionManagers.CleanAllEffect` | internal/relay/session.go:736-776 | a cleanup removes exactly the doomed sessions and leaves the others as they are |
| `SessionManagers.SessionManager.UpdatePeerAddr` | internal/relay/session.go:792-827 | records the addresses of the side that reports them |
| `SessionManagers.SessionManager.FindPeerOf` | internal/relay/session.go:844-859 | exactly the specified peer |
| `DataPlane.ActivationFindsNoEntry` | internal/relay/server.go:845-859 | in every interleaving over the two locks, a successful activation finds no relay entry and no packet handler about to write one |
| `DataPlane.SlotsBelongToPairing` | internal/p2p/stun_server.go:375-427 | in every interleaving, every peer slot used while the data plane is ready was admitted under the current pairing, and dataPlaneReady alone means active |
| `DataPlane.RunKeeps` | internal/relay/server.go:832-884 | the invariant of the two-lock protocol over every run of join, packet, disconnect, takeover and cleanup handlers |
| `SourceAdmission.AcceptedIff` | internal/relay/session.go:506-547 | in every run an active session accepts exactly the addresses observed for its two connections and those in the last report each made since it was bound |
| `SourceAdmission.NoStranger` | internal/p2p/stun_server.go:366-427 | in every interleaving, whoever sits in the entry of an active session or is about to is at an address observed for, or reported by, one of the two connections now paired |
| `SourceAdmission.LatestReported` | internal/relay/session.go:792-827 | an address in a last report is one that this connection has reported |
| `SourceAdmission.BothSidesEnter` | internal/p2p/stun_server.go:366-427 | one packet from each side of an active session fills its entry with exactly these two addresses |
| `RelayTable.Relay.OpenEntry` | internal/p2p/stun_server.go:383-398 | an entry is made exactly when both quotas allow, and the per-address counts stay exact |
| `RelayTable.Relay.Register` | internal/p2p/stun_server.go:399-434 | at most two peers at different addresses; the payload goes to the other one of a full entry, never back to the sender |
| `RelayTable.Relay.Invalidate` | internal/p2p/stun_server.go:458-481 | removes the entry and gives its place in the quota back |
| `RelayTable.AdmitApart` | internal/p2p/stun_server.go:399-427 | a packet is refused a slot only when it is a stranger to a full entry |
| `RelayTable.AdmitKeepsPeer` | internal/p2p/stun_server.go:399-427 | a packet displaces nobody at another IP |
| `RelayTable.TwoPeersMeet` | internal/p2p/stun_server.go:399-434 | two senders at different addresses are both in the entry, each the target of the other from then on |
| `RelayTable.PortIsFollowed` | internal/p2p/stun_server.go:408-416 | a peer that comes back from another port is followed there and still reaches the other |
| `RelayTable.HeaderRoundTrip` | internal/p2p/stun_server.go:53-74 | the header parses back to session ID and payload if and only if the ID has 1 to 64 bytes |
| `RateLimit.AllowKeeps` | internal/ratelimit/ratelimit.go:108-159 | at most maxKeys buckets, one per key, ordered by last use, tokens within [0, burst] |
| `RateLimit.IdleGoFirst` | internal/ratelimit/ratelimit.go:115-132 | an active bucket is taken over only when no bucket is idle |
| `RateLimit.SpendMeans` | internal/ratelimit/ratelimit.go:48-59 | n tokens are granted if and only if n <= burst and n <= tokens + rate * (now - last); the bucket then holds the smaller of burst and that sum, less the grant |
| `RateLimit.AllowMeans` | internal/ratelimit/ratelimit.go:108-159 | a known key draws on its own bucket, a newcomer on a full one while there is room or the bucket at the back is idle, otherwise on what is left in that one |
| `RateLimit.ChooseConserves` | internal/ratelimit/ratelimit.go:113-143 | hit, creation and takeover neither make nor lose tokens |
| `RateLimit.AllowDraws` | internal/ratelimit/ratelimit.go:108-159 | a call draws exactly what it grants from the common stock |
| `RateLimit.GrantBound` | internal/ratelimit/ratelimit.go:108-159 | if rate * idleExpiry >= burst: over every run with any keys, all grants together are at most maxKeys * (burst + rate * T) |
| `RateLimit.BoundIffRefillsInTime` | internal/ratelimit/ratelimit.go:119-131 | that bound holds in all runs if and only if rate * idleExpiry >= burst |
| `RateLimit.DrainsIff` | internal/ratelimit/ratelimit.go:48-54 | time takes tokens from a bucket if and only if the rate is negative, and leaves it as it was if and only if the rate is zero or it was full |
| `RateLimit.NegativeRateRefuses` | internal/ratelimit/ratelimit.go:27-37 | a full bucket with a negative rate refuses a second later what it would grant now |
| `Limiters.Bucket.AllowN` | internal/ratelimit/ratelimit.go:43-60 | grants n tokens if and only if n <= burst and n <= tokens + rate * (now - last), and leaves exactly the bucket of `RateLimit.SpendMeans` |
| `Limiters.KeyedBucket.Spend` | internal/ratelimit/ratelimit.go:144-158 | the same for a bucket of the limiter |
| `Limiters.KeyedLimiter.AllowN` | internal/ratelimit/ratelimit.go:108-159 | map and list always hold the same buckets, and the call is exactly the operation on the list of values that `RateLimit.AllowMeans` describes |
| `Replay.ReplayGuard.Accept` | internal/agent/replay.go:40-92 | accepts an id if and only if it is the first since reset, above the highest, or within 1024 of it and never accepted |
| `Replay.ReplayGuard.Reset` | internal/agent/replay.go:31-37 | forgets everything |
| `Replay.ReplayGuard.Advance` | internal/agent/replay.go:53-61 | moving the window empties exactly the slots it enters |
| `Replay.NeverTwice` | internal/agent/replay.go:40-72 | between resets no id is accepted twice, whatever arrives |
| `Replay.FirstArrivalAccepted` | internal/agent/replay.go:40-72 | an id that arrives for the first time and less than a window behind is accepted |
| `Replay.LoopEndsIff` | internal/agent/replay.go:57-59 | the clearing loop ends if and only if the id is not the largest uint64 |
| `Utf8.ScanUTF8` | internal/agent/tools/oemtext.go:38-66 | the loop finds the complete legal prefix, and tells a cut-off character from an illegal byte |
| `Utf8.ScanStops` | internal/agent/tools/oemtext.go:38-66 | why it stops: at a byte that begins no sequence, at one without enough continuation bytes, or, and only that is no fault, where the text ends too soon |
| `Utf8.ScanAfter` | internal/agent/tools/oemtext.go:38-66 | after well-formed text the scanner sees only what follows |
| `Utf8.ScanSplits` | internal/agent/tools/oemtext.go:31-66 | the complete prefix is well-formed and at most three bytes of an accepted text remain |
| `Utf8.PrefixAccepted` | internal/agent/tools/oemtext.go:38-66 | every prefix of an accepted text is accepted |
| `Utf8.CutAtRuneStart` | internal/agent/tools/truncate.go:19-47 | in well-formed text the rune starts are exactly the places where it may be cut |
| `Truncate.AlignDownLoop` | internal/agent/tools/truncate.go:22-33 | the loop computes AlignDown |
| `Truncate.AlignUpLoop` | internal/agent/tools/truncate.go:36-47 | the loop computes AlignUp |
| `Truncate.AlignDownMeans` | internal/agent/tools/truncate.go:21-33 | the largest boundary not above i |
| `Truncate.AlignUpMeans` | internal/agent/tools/truncate.go:35-47 | the smallest boundary not below i |
| `Truncate.BoundedStream.Write` | internal/agent/tools/exec_bounded.go:59-79 | keeps the first max + 4 bytes and a suffix of at least the last max, fewer than 2 * max, of everything written |
| `Truncate.PeakExact` | internal/agent/tools/exec_bounded.go:67-78 | over all sequences of writes the tail buffer peaks at exactly 3 * max - 2 bytes |
| `Truncate.PeakExceedsIff` | internal/agent/tools/exec_bounded.go:44-46 | some write needs more than 2 * max bytes if and only if max is at least 3; a given one if and only if it is shorter than max and does not fit |
| `Truncate.BoundedStream.TailWindow` | internal/agent/tools/exec_bounded.go:82-87 | exactly the last max bytes, or everything |
| `Truncate.BoundedStream.Result` | internal/agent/tools/exec_bounded.go:90-116 | for every split into writes, byte for byte TruncateMiddle of the whole, with the same flag and elided count (`TruncateMeaning.MiddleTells`) |
| `TruncateMeaning.MiddleFits` | internal/agent/tools/truncate.go:65-83 | the output is at most max bytes as long as the elided count is below 10^16 |
| `TruncateMeaning.AsciiExceedsIff` | internal/agent/tools/truncate.go:65-83 | on ASCII it exceeds max if and only if 10^16 bytes or more are left out |
| `TruncateMeaning.ElideLength` | internal/agent/tools/truncate.go:78-83 | the length of the output: what is kept, 80 bytes of wording and the digits of the number left out |
| `TruncateMeaning.DecimalValue` | internal/agent/tools/truncate.go:81-81 | the digits in the marker read as the number itself, without leading zeros |
| `TruncateMeaning.MiddleTells` | internal/agent/tools/truncate.go:70-83 | the output is a front of the text, the wording around a number, and a back of the text; the number is how many bytes are missing, and front and back are the longest within half the budget each that cut no character |
| `TruncateMeaning.WholeOrFront` | internal/agent/tools/truncate.go:50-77 | a text that fits is unchanged; without room for the marker the longest front within max is kept |
| `TruncateMeaning.ChineseFitsReserve` | internal/agent/tools/truncate.go:66-81 | the marker's wording takes 80 of the 96 reserved bytes and is well-formed |
| `TruncateMeaning.MiddleWellFormed` | internal/agent/tools/truncate.go:19-83 | well-formed text stays well-formed for every budget |
| `OemText.DecodingWriter.Write` | internal/agent/tools/oemtext.go:96-162 | the state and the bytes passed on after one write, for every code page; over whole streams see `CodePages.LegacyConverted`, `OemText.AcceptedUnchanged` and `OemText.BinaryUnchanged` |
| `OemText.DecodingWriter.FlushAll` | internal/agent/tools/oemtext.go:174-191 | what is held back comes out, converted only if it is not the start of a UTF-8 character |
| `OemText.AcceptedUnchanged` | internal/agent/tools/oemtext.go:96-191 | text the scanner accepts passes unchanged under every chunking, whatever the conversion would do |
| `OemText.NoCodePageUnchanged` | internal/agent/tools/oemtext.go:96-191 | every byte stream passes unchanged under every chunking when conversion always fails |
| `OemText.BinaryUnchanged` | internal/agent/tools/oemtext.go:147-158 | once bytes are neither UTF-8 nor text of the code page, the whole stream passes unchanged, before and after them |
| `OemText.StartsAfresh` | internal/agent/tools/oemtext.go:113-117 | when nothing is held back and the writer has not given up, what follows is decoded on its own |
| `CodePages.LegacyConverted` | internal/agent/tools/oemtext.go:96-191 | for every double-byte code page and every chunking: UTF-8 text followed by code page text comes out as the first part unchanged and the second converted, half a character at the very end left as it is unless the page converts it |
| `CodePages.EachInItsOwn` | internal/agent/tools/oemtext.go:113-117 | and the encoding may change back between writes |
| `CodePages.SplitTrailingPartial` | internal/agent/tools/oemtext_windows.go:117-134 | the scan splits off exactly a last byte that opens a character, and loses nothing |
| `CodePages.HeadShown` | internal/agent/tools/oemtext_windows.go:90-134 | the whole characters at the front convert on their own, and the rest is left to convert |
| `OemText.Collect` | internal/agent/tools/exec.go:109-151 | hence the output of exec is TruncateMiddle of the raw stream |
| `WinArgs.QuoteWindowsArg` | internal/agent/winargs.go:23-51 | the loop with its backslash counter computes the quoted form |
| `WinArgs.BuildWindowsCommandLine` | internal/agent/winargs.go:55-61 | the quoted arguments joined by single spaces |
| `WinArgs.ReadBody` | internal/agent/winargs.go:16-51 | reading a quoted body gives the text back, backslash runs included, and stops right after it |
| `WinArgs.RoundTrip` | internal/agent/winargs.go:53-61 | every argument list is parsed back exactly, empty arguments and trailing backslashes included |
| `WinArgs.ReceivedIff` | internal/agent/elevate_windows.go:22-39 | the elevated child receives exactly the arguments if and only if none holds a NUL |
| `Aad.ChunkInjective` | internal/proto/aad.go:85-87 | no two stream frame headers share their associated data |
| `Aad.ReqInjective` | internal/proto/aad.go:70-72 | no two requests do |
| `Aad.RespInjectiveIff` | internal/proto/aad.go:79-81 | responses with error codes below a limit never share their associated data, if and only if the limit is at most 2^32 |
| `Aad.RespAmbiguous` | internal/proto/aad.go:38-44 | two responses that share it, one with a code of 2^32 bytes |
| `Aad.StrPrefixFree` | internal/proto/aad.go:38-44 | a string behind its length can be read off the front of any bytes, as long as it is shorter than 2^32 |
| `Aad.KindsApart` | internal/proto/aad.go:17-36 | requests, responses and frames never share it |
| `Aad.BuildStreamChunkAAD` | internal/proto/aad.go:85-87 | the builder chain gives the specified bytes |
| `ToolStream.ChunkSink.SendData` | internal/agent/agent.go:389-411 | seals one frame with the next number, nothing after the end |
| `ToolStream.ChunkSink.FinishStream` | internal/agent/agent.go:415-432 | seals one empty terminator in the same numbering, once, and only if the stream was active |
| `ToolStream.StreamRecv.ObserveFrame` | internal/mcp/bridge.go:113-131 | late frames close their gap, early ones register every number skipped, beyond the cap by count |
| `ToolStream.TrackMisses` | internal/mcp/bridge.go:120-129 | every number skipped is registered or counted |
| `ToolStream.Authentic` | internal/mcp/bridge.go:410-450 | a frame that opens is one the sender sealed, header and all |
| `ToolStream.OtherCallIsForeign` | internal/proto/aad.go:83-87 | frames sealed for other calls do not open as frames of this one |
| `ToolStream.RequestIsForeign` | internal/proto/aad.go:17-24 | nor do requests |
| `ToolStream.ResponseIsForeign` | internal/proto/aad.go:17-24 | nor do responses |
| `ToolStream.ExecKeeps` | internal/mcp/bridge.go:410-455 | the invariant of sender, channel and receiver over every run with loss, reordering, repetition and forged frames |
| `ToolStream.OnlyAuthentic` | internal/mcp/bridge.go:410-455 | only frames the sender sealed for this call reach the callback |
| `ToolStream.Complete` | internal/mcp/bridge.go:375-390 | success means the terminator was sealed and every data frame before it was called back or is held by a handler on its way, unless a handler is about to report damage |
| `StreamDelivery.UndisturbedSucceeds` | internal/mcp/bridge.go:410-455 | for all pieces of output there is a run that delivers them in order, ends in success, and has called back with every piece that holds data, once and in order |
| `StreamSchedules.OrderlyIsTruthful` | internal/mcp/bridge.go:375-455 | with one handler at a time and nothing after the terminator, success means every data frame was called back, at whatever moment it is read |
| `StreamSchedules.TruthfulIff` | internal/mcp/bridge.go:164-178 | success can be trusted at every moment of every run of a discipline if and only if it asks for both |
| `StreamSchedules.SuccessBeforeCallback` | internal/mcp/bridge.go:447-454 | a run of two overlapping handlers in which success precedes the callback |
| `StreamSchedules.SuccessBeforeLateCallback` | internal/mcp/bridge.go:447-454 | a run of one handler at a time in which a late frame closes the last gap before its callback |
| `StreamSchedules.SuccessBeforeDamage` | internal/mcp/bridge.go:435-444 | a run of one handler at a time in which a frame that fails to open hides a missing one at the moment of the check |
| `Bridge.NoneStranded` | internal/mcp/bridge.go:237-256 | in every run, once Disconnect has finished every caller past its second closed check has a reply in its channel |
| `Bridge.LaterCallersFail` | internal/mcp/bridge.go:275-296 | from the moment closed is set, no caller that has not passed its second check ever sends |
| `Bridge.CallCompletes` | internal/mcp/bridge.go:275-409 | while the bridge is open a new caller gets through: its request is sent, it takes the peer's reply, and it leaves table, channels and other callers as they were |
| `Bridge.WokenByDisconnect` | internal/mcp/bridge.go:237-256 | a waiting caller that Disconnect visits is told that the tunnel is lost, unless it has an answer already; the first reply counts |
| `Bridge.RunKeeps` | internal/mcp/bridge.go:237-409 | the invariant of callers, pending table, channels and the walk over every run |
| `Stun.RoundTripIff` | internal/p2p/stun.go:69-150 | unpacking a packed message recovers type, transaction ID and attributes if the padded attributes fit 16 bits, and loses attributes otherwise |
| `Stun.ParsedFits` | internal/p2p/stun.go:122-148 | the attributes read never need more room than the body, the last padding aside |
| `Stun.AddressRoundTrip` | internal/p2p/stun_server.go:288-329 | the XOR-MAPPED-ADDRESS value decodes to the IP and port it was made from, IPv4 and IPv6 |
| `Stun.PlainRoundTrip` | internal/p2p/stun.go:162-203 | a plain MAPPED-ADDRESS decodes to its IP and port, whatever the cookie |
| `Stun.RequestBytes` | internal/p2p/stun.go:58-99 | a binding request on the wire |
| `Stun.ReflexiveAddress` | internal/p2p/stun_server.go:260-285 | from the server's reply, packed and unpacked, the client reads the address the server saw |
| `Stun.SlicesPastEndIff` | internal/p2p/stun.go:153-203 | reading an address slices past the end exactly when the first address attribute claims IPv6 with 8 to 19 bytes |
| `Stun.XorTwice` | internal/p2p/stun.go:172-197 | exclusive or with the same key twice gives the number back |
| `Stun.XorBit` | internal/p2p/stun.go:172-197 | bit by bit, set where exactly one of the two is |
| `StunCodec.Pack` | internal/p2p/stun.go:69-99 | the two loops fill the buffer with exactly the specified bytes |
| `StunCodec.UnpackSTUN` | internal/p2p/stun.go:102-150 | total and in bounds on arbitrary bytes, and exactly the specified result |
| `StunCodec.GetMappedAddress` | internal/p2p/stun.go:153-160 | the first address attribute decides |
| `Transfer.DownloadExact` | internal/client/help_bootstrap.go:1129-1215 | under every pattern of lost requests, lost replies and reconnects a download from 0 leaves a prefix of the remote file, and success means equality |
| `Transfer.DownloadSucceeds` | internal/client/help_bootstrap.go:911-933 | while the tunnel is up and of any four calls in a row one is served, a download succeeds with the whole file |
| `Transfer.UploadKeeps` | internal/client/help_bootstrap.go:975-1124 | an upload to an absent or prefix file keeps it a prefix, and success means equality |
| `Transfer.UploadExactIff` | internal/client/help_bootstrap.go:199-244 | success means equality under every pattern of failures if and only if the remote file started absent or as a prefix |
| `Transfer.StaleRemoteSurvives` | internal/client/help_bootstrap.go:1017-1029 | otherwise a lost truncation and a resume report success with the wrong file |
| `Transfer.UploadSucceeds` | internal/client/help_bootstrap.go:911-933 | under the same condition an upload succeeds and replaces whatever the remote file was |
| `Transfer.ResumeSucceeds` | internal/client/help_bootstrap.go:975-1124 | and a resumed one completes a file that was begun |
| `TransferRecovery.DownloadRecovers` | internal/client/help_bootstrap.go:199-244 | a download completes with the whole file although the tunnel is lost up to five times, if no call uses up its retries in between |
| `TransferRecovery.UploadRecovers` | internal/client/help_bootstrap.go:199-244 | so does an upload; the remote file is then the local one if it was absent or a prefix to begin with |
| `Transfer.ReadExtends` | internal/agent/tools/file.go:55-77 | what read_file returns at the end of a prefix extends it, and with eof completes it |
| `Transfer.PatchPrefix` | internal/agent/tools/file.go:111-124 | writing local bytes at an offset inside a prefix gives a prefix, also when repeated |
| `Transfer.PatchMeans` | internal/agent/tools/file.go:111-124 | byte by byte what a write at an offset leaves, gaps as zeros |
| `TransferLoops.Link.CallToolRetry` | internal/client/help_bootstrap.go:911-933 | up to four attempts, none after a tunnel failure or a cancellation |
| `TransferLoops.Link.DoUploadFile` | internal/client/help_bootstrap.go:975-1124 | the chunk loop is exactly the specified upload |
| `TransferLoops.Link.DoDownloadFile` | internal/client/help_bootstrap.go:1129-1215 | the read loop is exactly the specified download |
| `TransferLoops.Link.UploadFile` | internal/client/help_bootstrap.go:199-244 | the reconnect loop resumes an upload at the size the remote file reports |
| `TransferLoops.Link.DownloadFile` | internal/client/help_bootstrap.go:199-244 | the reconnect loop resumes a download at the local size |
| `P2PManager.OneTunnel` | internal/p2p/manager.go:634-721 | in every interleaving at most one tunnel is made, and its socket is open while it waits or is in the consumer's hands |
| `P2PManager.NothingLeaks` | internal/p2p/manager.go:796-831 | once Close and all handlers have finished, the tunnel was received or closed, and unless received the socket is closed |
| `P2PManager.TunnelReaches` | internal/p2p/manager.go:634-721 | a connection before the timeout and before Close: the first handler makes the tunnel and the consumer receives it |
| `P2PManager.TimeoutFallsBack` | internal/p2p/manager.go:723-754 | without a connection the timeout tells the consumer to fall back, and a later handler makes no tunnel |
| `P2PManager.RunKeeps` | internal/p2p/manager.go:634-754 | the ownership invariant over every run of handlers, timeout, consumer and Close |

## Left out

- acquireConnSlot, releaseConnSlot, the per-connection message limits and join throttling of internal/relay/server.go: counters that would only add easy members.
- The byte limiter in front of the UDP relay and sampled logging in internal/p2p/stun_server.go.
- Retransmission timing, keepalive and peer timeout of the tunnel: a retransmission is a step that may happen at any time.
- TruncateTail, resolveMaxOutput, detectSameNetwork, GetSessionByCode and GetSessionByClientID: easy next to the rest.
- AEAD, key derivation, flate, the tables of the code pages and their detection, JSON, sockets and timers: parameters or idealised as described above.
- CodePages.LegacyConverted: MultiByteToWideChar is taken to convert one character after the other; code page text that looks like UTF-8 at a character is not covered, since the writer passes it on as UTF-8 (OemText.AcceptedUnchanged).
- float64 rounding in the limiters: tokens and times are real numbers.
- SessionManagers.SessionManager: a session's fields are kept in one record that is replaced as a whole, and the closed flag is absence from the table.
- DataPlane.RunKeeps: the packet handler's forwarding of the payload after both locks are released is not a step.
- Replay.ReplayGuard.Accept: a 64-bit word of the ring is a row of 64 flags instead of a bit mask.
- ToolStream.Complete: speaks of streams of fewer than 2^32 frames, beyond which the sequence number repeats.
- TunnelRuns.Safety: speaks of fewer than 2^32 packets each way, beyond which the sequence number repeats.
- Transfer.UploadExactIff: a request that was reported lost never takes effect later, and a write is all or nothing.
- Bridge.RunKeeps: call ids do not repeat within one bridge.
- P2PManager.RunKeeps: hole punching, background retry scheduling and the receive loop only matter as further handlers.
- Version negotiation, the GUI, MCP JSON-RPC, upgrades, elevation and process control.
