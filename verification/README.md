# A verified model of the wpn tunnel

wpn carries streams and packets over a websocket. One end of a tunnel is a `Conn`; a client keeps
pools of such ends, a server answers their open requests, and SOCKS5 and L2TP front ends speak to
local programs. This project models the parts of wpn whose correctness is spread over several
functions and goroutines, and proves what they keep.

| part | modules |
|---|---|
| the two-ended tunnel protocol | `Tunnel`, `OrderlyRun`, `OrderlyInvariant`, `SessionIsolation`, `MisledClient`, `StaleClose`, `Correlation`, `Ownership`, `ErrorNotes`, `PacketFrame` |
| the client's connection pools | `ConnPool`, `ClientPools`, `PooledClient` |
| wire codecs and the SOCKS5 session | `L2TP`, `Socks5Addr`, `Socks5Session`, `Socks5Replies`, `Socks5Server` |
| the block-rule engine and the server's dialer | `IPRules`, `RuleText`, `PlainText`, `ServerDial` |

`dafny verify dfyconfig.toml` checks everything.

## How the tunnel is modelled

`Tunnel` gives every lock-held region of `Conn` as a function from the fields to an `Effect` (new
fields, messages sent, connections closed, callbacks run, bytes written, goroutines spawned). The
class `Tunnel.Conn` does the same by assigning fields, and each of its methods is proved to have
exactly the effect of that function. Three step systems run these functions:

* `Correlation`: two equal ends, any interleaving of dials, listens, cancellations, closes and data
  in both directions, until an end closes.
* `Ownership`: one end that accepts and dials, against an arbitrary peer, network, context and scheduler.
* `OrderlyRun`: a dialing client and an accepting server with unboundedly many sessions.

An **orderly run** obeys these conditions, which are guards of `OrderlyRun.Enabled` or properties of
its steps, because the code itself checks only the status (conn.go:458):

* no context is cancelled, the websocket is reliable and FIFO, and only the client opens streams;
* a dial starts only when the client is idle, no dial is in progress, `onResult` is nil and the
  earlier `serveStream` has returned;
* a write into the client's local pipe fails only after the client has sent `X`;
* reading a chunk and forwarding it is one step, and so is the status check of `serveStream` together
  with the installation of its close callback.

A dial completes in two steps, closes cross, a close may arrive before the dialer wakes, and a
server goroutine may install its close callback and send its `X` long after its session; the proofs
cover all of these.

Under these conditions alone neither isolation nor the agreement of the two ends holds, and the
project proves exactly when they do. A step is **misleading** (`OrderlyInvariant.Misleads`) if the
client, neither dialing nor closing, handles an `X` (conn.go:216-225) although what is already on the
way to the server, with the bare reply behind it, will not leave the server idle and forwarding
nothing. `X` carries no session, so the code cannot tell.

* In orderly runs without a misleading step sessions never mix, an open request always meets an idle
  server, and a client ready to dial means an idle server (`SessionIsolation`).
* After any such run a step is misleading if and only if some continuation behind it, itself without
  another misleading step, mixes two sessions or brings an open request to a busy server
  (`MisledClient.MisleadingExactly`).
* Misleading steps happen: `StaleClose` has a complete run in which a goroutine of session 0 sends its
  `X` late and the client delivers a byte of session 1 in session 2, and another in which the client is
  ready to dial, nothing is in flight, and its open request meets a server in stream mode that closes
  the tunnel for it.

## What turned out differently from the comments or the intent

* No connection is orphaned *exactly* in the runs in which the status does not leave stream or packet
  mode, and no other connection takes the place, between the opening of a connection and its
  goroutine's capture of it. The end of the context, a late reply to an earlier `X`, an `X` in packet
  mode, and the end's own dialer waking up or giving up do that (`Ownership.OrphanFreeExactly`).
* `PutFrom` can panic once a timed-out Shutdown has cleared the busy pools, exactly for the
  connections it took (`ClientPools.StreamWatcherPanicsExactly`, `ClientPools.ClearThenPanic`).
* A callback is given another request's answer *exactly* if it was installed while an earlier answer
  was outstanding and is still installed when a reply comes (`Correlation.MisroutedExactly`). A dial
  cancelled before its answer, followed by another dial, is an example
  (`Correlation.CancelledDialMisroutes`).
* `pktListener` returns neither a socket nor an error when nothing was resolved (`ServerDial.Listen`).
* Exclude rules: the comment at iprule.go:121-123 speaks of a conjunction; the loop rejects when the
  own test of any exclude rule holds, that is when the address is outside the prefix of one of them.
  The model follows the loop.
* `AddrPortFromNetAddr` would store a 16-byte address under the IPv4 type in its fallback branch, which
  the marshaller then refuses with a panic (`Socks5Addr.FromNetAddrWellFormed`); no address that
  `netip.ParseAddrPort` accepts reaches that branch.
* A header whose 16-bit skip over the pad wraps around can be read back although its Length is wrong;
  `L2TP.HeaderRoundTrip` says exactly when.
* The comment at conn.go:93-96 ties `streamConn` and `packetConn` to one status each; the code keeps
  them longer, and the model does too. `Handle` does not always close the connection on an error, as
  its comment at conn.go:364 says.
* A rule file is read only up to the first line of 65536 bytes or more; nothing reports the rest.

## Model

| member | source | states |
|---|---|---|
| `SessionIsolation.SessionsStayApart` | conn.go:302-361 | in every orderly run without a misleading step, bytes the server delivers in session k are a prefix of what the client read in session k, and bytes the client delivers are one contiguous run of what the server read in session k |
| `SessionIsolation.NothingLostWhileOpen` | conn.go:531-558 | in every orderly run without a misleading step, while a session is open at the receiver, the bytes read at the other end are those delivered followed by those in flight, after the ones that passed before the client's dialer woke |
| `SessionIsolation.OpenMeetsIdleServer` | conn.go:255-283 | in every orderly run without a misleading step neither end is closed and an open request at the head of the channel finds the server idle, so the illegal-status branch never fires |
| `SessionIsolation.ReadyClientMeansIdleServer` | conn.go:455-523 | in every orderly run without a misleading step, when the client may dial and both channels are empty, the server is idle and no goroutine of it forwards an old connection or will come to |
| `SessionIsolation.FollowedExactly` | conn.go:216-225 | for every orderly run: whenever the client has left its session, what is on the way to the server leaves it idle and forwarding nothing, if and only if no step misleads |
| `MisledClient.MisleadingExactly` | conn.go:216-225 | after any orderly run that has not misled yet, the next step misleads if and only if a continuation without misleading steps mixes sessions or brings an open request to a busy server |
| `MisledClient.AheadHarms` | conn.go:211-300 | from every state in which the client has left ahead of the server, such a harmful continuation exists |
| `SessionIsolation.OrderlyRunKeeps` | conn.go:432-451 | every orderly run without a misleading step keeps the protocol invariant and the account of every session's bytes (read = passed + in flight; delivered is one window of what passed) |
| `SessionIsolation.UpStep` | conn.go:347-359 | one step keeps the client-to-server account of any session |
| `SessionIsolation.DownStep` | conn.go:531-558 | one step keeps the server-to-client account of any session, also for data landing between the reply and the dialer's wake-up |
| `OrderlyInvariant.StepKeeps` | conn.go:211-300 | every step of either end, of any goroutine or of the dialer, unless it misleads, keeps the invariant on phases, channel contents and the forecast of the server's idleness |
| `OrderlyInvariant.ForecastKeeps` | conn.go:211-300 | nothing the client may have in flight takes back that the server is idle or has let its old connection go |
| `OrderlyInvariant.ServerGetsClose` | conn.go:216-225 | handling `X` leaves the server idle and forwarding nothing, and answers the client's one outstanding close |
| `OrderlyInvariant.ClientGetsClose` | conn.go:216-225 | an `X` handled by the client, crossing its own dial or close or not, keeps the core of the invariant, and all of it if and only if it does not mislead |
| `OrderlyInvariant.ReturnEndsReading` | conn.go:536 | a goroutine that returns ends the reading of its connection |
| `OrderlyInvariant.CallbackReleases` | conn.go:436-450 | a close callback that has run lets its goroutine return, whether its `X` was sent before or not |
| `StaleClose.StaleCloseMixesSessions` | conn.go:432-444 | an orderly run that is misled once delivers a byte of session 1 in session 2 |
| `StaleClose.StaleCloseMeetsBusyServer` | conn.go:255-259 | an orderly run that is misled once leaves the client ready to dial with both channels empty and the server in stream mode; the dial's open request then closes the tunnel |
| `Correlation.RepliesCorrelate` | conn.go:211-300 | in every run until an end closes, in both directions: requests sent = in flight + replies in flight + replies received; the k-th reply answers the k-th request: bare exactly for `X`, otherwise a success with the local address or a failure with the error, as the peer's check, dialer or listener decided about that request |
| `Correlation.CallbacksAreToldTheDecision` | conn.go:226-291 | in every run until an end closes, whatever callback is called is told what was decided about the request answered, down to the address or the error text |
| `Correlation.CancelSilences` | conn.go:492-504 | no reply reaches the callback of a cancelled dial |
| `ErrorNotes.NoteClosesSessionPipe` | conn.go:292-297 | in every orderly run, misled or not, a note heard in stream mode closes the pipe of the client's session and no other |
| `ErrorNotes.NoteClosesWatchedPipe` | conn.go:513-515 | for any end in any run: hearing a note outside idle closes exactly the pipe of the last successful dial or listen, unless an earlier note has; an idle end closes nothing |
| `Correlation.CallbacksGetTheirOwnAnswer` | conn.go:469-477 | when each end starts a request only after its last one was answered, every callback is given the answer to its own request, of its own kind |
| `Correlation.MisroutedExactly` | conn.go:284-291 | in every run until an end closes, a callback was given the answer to another request than the next one after its installation, or one of the wrong kind, if and only if some reply met a callback installed while an earlier answer was outstanding |
| `Correlation.CancelledDialMisroutes` | conn.go:492-504 | a cancelled dial followed by a new one hands the old answer to the new dialer |
| `Correlation.HandlerReplies` | conn.go:211-300 | a handler sends one fitting reply to a request it does not close on, no reply otherwise, and never a request |
| `Ownership.OrphanFreeExactly` | conn.go:211-283 | for every run of an end, which may also dial and listen, every connection obtained for an open request is at all times closed, held by a live goroutine or about to be captured, if and only if no step of the run loses one |
| `Ownership.StepExact` | conn.go:122-180 | from any sound state without orphans, a step orphans a connection exactly if it is one of the losing ones |
| `Ownership.RunExact` | conn.go:531-558 | the same from any sound state, for whole runs |
| `Ownership.CoveredWhenStarted` | conn.go:580-606 | with no goroutine left to start, covered means closed or held by a goroutine that closes it on exit |
| `Ownership.ContextEndOrphans` | conn.go:370-373 | the context ending before the goroutine's capture leaves a connection nobody closes, not even `Close` |
| `Ownership.PacketCloseOrphans` | conn.go:216-225 | an `X` before the packet goroutine's capture leaves its socket open |
| `Ownership.FailedWriteShuts` | conn.go:203-209 | a failed write of data or of an error note shuts the end and closes all it refers to, and what the goroutine served |
| `Ownership.CloseComesTooLate` | conn.go:122-128 | after the context has ended, `Close` closes nothing any more |
| `Ownership.WakeOrphans` | conn.go:509-519 | an end's own dialer waking up takes the place of a connection accepted meanwhile, which nobody closes |
| `Tunnel.Conn.constructor` | conn.go:110-118 | a wrapped connection is idle and holds nothing |
| `Tunnel.Conn.CloseWithCode` | conn.go:155-180 | the first close drops and closes both connections; later ones change nothing |
| `Tunnel.Conn.SendCmd` | conn.go:203-209 | the command leaves, or this end closes |
| `Tunnel.Conn.Handle` | conn.go:211-300 | the effect of the command read from the text; an index panic exactly on the empty message |
| `Tunnel.Conn.Open` | conn.go:226-283 | the effect of an open request under every outcome of check, dialer and reply |
| `Tunnel.Conn.Result` | conn.go:284-291 | the one-shot callback runs once, and a close callback also makes this end idle |
| `Tunnel.Conn.HandleStreamData` | conn.go:347-359 | data goes to the current stream; a broken one is dropped, closed and reported |
| `Tunnel.Conn.BeginDial` | conn.go:455-479 | the first half of a dial, with its status error and its failed write |
| `Tunnel.Conn.FinishDial` | conn.go:483-521 | the second half of a dial, when the dialer wakes |
| `Tunnel.Conn.CancelDial` | conn.go:492-504 | a cancelled dial makes this end idle and forgets its callback |
| `Tunnel.Conn.ArmClose` | conn.go:435-441 | the close callback replaces whatever callback there was |
| `Tunnel.Conn.BeginServe` | conn.go:531-536 | a goroutine serves the current connection only in its own mode, and panics exactly if there is none |
| `Tunnel.ServedIfGranted` | conn.go:249-283 | a goroutine is started exactly when the message that grants the request has left |
| `Tunnel.EveryRegionBacks` | conn.go:347-359 | every lock-held region keeps that stream mode has a stream, so that panic never happens to a stream |
| `Tunnel.Split` | utils.go:60-66 | the left part holds no separator, and the parts rebuild the text around the first one |
| `Tunnel.SplitJoin` | utils.go:60-66 | splitting undoes joining |
| `Tunnel.ParseExactly` | conn.go:215-298 | every non-empty text means exactly one command, described by its letters alone, and is read as that |
| `Tunnel.WireTexts` | conn.go:182-200 | the letters of all commands on the wire |
| `Tunnel.WireRoundTrip` | conn.go:211-298 | a command survives the wire exactly when an open request's protocol has no `;` |
| `PacketFrame.FrameRecovered` | conn.go:308-339 | network and address come back exactly if both are under 256 bytes; the data is then the first n bytes for every size n of the final read, and all of them when it returns the rest |
| `PacketFrame.FrameOctets` | conn.go:567-571 | the layout of a frame on an example |
| `ConnPool.SwapRemoveContents` | connpool.go:55-67 | swap-removal takes out one occurrence and nothing else, and fails exactly when there is none |
| `ConnPool.Pool.constructor` | connpool.go:9-12 | a new pool is empty |
| `ConnPool.Pool.Len` | connpool.go:14-19 | the number of connections |
| `ConnPool.Pool.Clear` | connpool.go:21-27 | hands everything out and leaves nothing |
| `ConnPool.Pool.Put` | connpool.go:29-34 | appends |
| `ConnPool.Pool.Remove` | connpool.go:49-53 | the in-place loop is swap-removal: contents lose exactly the one connection, and the result says whether it was there |
| `ConnPool.Pool.RemoveLocked` | connpool.go:55-67 | the same loop with the lock held |
| `ConnPool.Pool.PutFrom` | connpool.go:37-47 | an atomic move that conserves the two pools together, or a panic that changes neither, exactly when the source lacks the connection |
| `ConnPool.Pool.TakeOr` | connpool.go:69-82 | the last connection, or the new one exactly when the pool is empty |
| `ClientPools.EveryConnectionInOnePlace` | client.go:149-199 | in every interleaving, Shutdown included, a created connection is in exactly one of: a pool, one caller's hands, released |
| `ClientPools.LifeOfAConnection` | client.go:149-235 | after every run a connection is, once and nowhere else, where its own life has taken it: taken by a caller, filed busy or idle as its dial or listen ended, moved back by its watcher, let go by Ping or a clear |
| `ClientPools.OnlyPingAndClearsLetGo` | client.go:102-108 | in a run without a returning Ping and without clears no connection is let go; no dial, listen or watcher leaks one |
| `ClientPools.FailedIsTakenNext` | client.go:184-187 | the connection of a failed dial or listen is filed last, and the next caller takes it |
| `ClientPools.WatchersMatchPools` | client.go:188-196 | until Shutdown starts, watchers (with those about to be spawned) and the stream pool are equal as multisets, and likewise for packets |
| `ClientPools.PutFromPanicsOnlyAfterClear` | connpool.go:37-47 | no interleaving reaches the panic before Shutdown has cleared a busy pool |
| `ClientPools.StreamWatcherPanicsExactly` | client.go:79-100 | in any reachable state a stream watcher's `PutFrom` panics if and only if Shutdown took its connection |
| `ClientPools.PacketWatcherPanicsExactly` | client.go:224-232 | the same for a packet watcher |
| `ClientPools.ClearThenPanic` | client.go:84-95 | after the clear the panic is reachable |
| `PooledClient.TunnelClient.GetIdleConn` | client.go:158-167 | takes the last idle connection, or a new one, or fails exactly when there is none and none can be made; one step of the system above |
| `PooledClient.TunnelClient.PutIdleConn` | client.go:149-156 | files a prepared connection; one step |
| `PooledClient.TunnelClient.DialReturned` | client.go:183-188 | a dialed connection goes to the stream pool, a failed one back to the end of the idle pool; one step |
| `PooledClient.TunnelClient.ListenReturned` | client.go:219-224 | the same for packets |
| `PooledClient.TunnelClient.StreamPipeClosed` | client.go:189-196 | the watcher's atomic move back, or its panic; one step |
| `PooledClient.TunnelClient.PacketPipeClosed` | client.go:225-232 | the same for packets |
| `PooledClient.TunnelClient.CheckConns` | client.go:68-73 | idle connections are let go, and the result says whether nothing is busy |
| `PooledClient.TunnelClient.ClearBusy` | client.go:89-94 | both busy pools are let go; two steps |
| `L2TP.ParseHeaderExactly` | l2tp/server.go:142-202 | parsing succeeds if and only if version, Length, flags and every announced field and pad fit, and then gives the fields at their places and the payload up to Length or the buffer's end |
| `L2TP.ParseHeaderPanicsExactly` | l2tp/server.go:142-202 | an out-of-range access happens exactly on messages too short for what is read before a rejection |
| `L2TP.ParseHeaderErrsExactly` | l2tp/server.go:142-187 | which of the errors a message that is not read comes to |
| `L2TP.EncodeTo` | l2tp/server.go:204-235 | the appending encoder, with its flags patched in place afterwards, appends exactly the encoding and leaves what was there |
| `L2TP.HeaderRoundTrip` | l2tp/server.go:142-235 | encoding a header before a payload with its pad, then parsing, gives both back if and only if the header is consistent, or its wrapped skip and short Length frame by accident the very bytes behind the pad |
| `L2TP.ParseThenEncode` | l2tp/server.go:142-235 | re-encoding a parsed header without reserved bits and offset, then its payload, rebuilds the message up to Length |
| `L2TP.AVPRoundTrip` | l2tp/server.go:263-297 | an encoded AVP before any bytes is read back if and only if its value has at most 1017 bytes and its length field says so |
| `L2TP.LoopPartitions` | l2tp/server.go:79-86 | the loop yields a list of AVPs if and only if they partition the body |
| `L2TP.AVPsRoundTrip` | l2tp/server.go:263-297 | concatenated encodings of AVPs that fit are parsed to the same list |
| `L2TP.ParseAVP` | l2tp/server.go:263-281 | never out of range; on success it takes between 6 and all of the bytes, and leaves exactly the rest |
| `L2TP.ParseAVPExactly` | l2tp/server.go:263-281 | an AVP is read exactly if its ten-bit length covers the six fixed octets and is covered, whatever the reserved bits, with each field from its octets |
| `L2TP.CollectAVPs` | l2tp/server.go:79-86 | the loop terminates with the list the recursive parser gives |
| `L2TP.HandleMessage` | l2tp/server.go:65-105 | the handler's outcome for a datagram is the function's, which the rows from `RepliesExactly` to `RequestIsAnswered` are about |
| `L2TP.RepliesExactly` | l2tp/server.go:65-105 | a reply is sent if and only if the datagram is a control message whose body partitions into one or more AVPs, and it parses without a payload |
| `L2TP.ReplyAdvances` | l2tp/server.go:88-99 | a reply parses as a control header alone, for the tunnel and session of the message, Ns and Nr each one more and wrapping after 65535, without priority, Length or offset |
| `L2TP.QuietExactly` | l2tp/server.go:102-104 | nothing happens exactly for data messages |
| `L2TP.DataOctets` | l2tp/server.go:204-235 | the octets of two data headers |
| `L2TP.RequestIsAnswered` | l2tp/server.go:65-105 | the octets of a request and of its reply |
| `Socks5Addr.AddrRoundTrip` | socks5/addr.go:114-182 | reading an encoded well-formed address followed by anything gives that address and counts exactly its bytes |
| `Socks5Addr.ReadIsEncoding` | socks5/addr.go:114-149 | whatever is read successfully is well-formed and its encoding is what was read |
| `Socks5Addr.StrictPrefixFails` | socks5/addr.go:114-149 | every strict prefix of an encoding ends in end of file, with all of it consumed |
| `Socks5Addr.MarshalWellFormed` | socks5/addr.go:151-182 | well-formed addresses marshal to their encoding; the length panics are exactly the ill-formed ones of a known type |
| `Socks5Addr.FromNetAddrWellFormed` | socks5/addr.go:28-51 | the result can be marshalled exactly for 4- and 16-byte addresses |
| `Socks5Addr.FromNetAddrMarshals` | socks5/addr.go:28-51 | a 4- or 16-byte address is marshalled as its type, its bytes and its port |
| `Socks5Addr.AddrPort.ReadFrom` | socks5/addr.go:114-149 | in every outcome the count is the bytes taken from the stream, and the object is what the reading function gives |
| `Socks5Addr.FormsExactly` | socks5/addr.go:53-78 | exactly 4-byte and mapped addresses have a 4-byte form, and the 16-byte form of a 4-byte address is the mapped one |
| `Socks5Addr.AddrPort.SetIPv4` | socks5/addr.go:53-60 | panics exactly without a 4-byte form; otherwise well-formed |
| `Socks5Addr.AddrPort.SetDomain` | socks5/addr.go:62-69 | panics exactly above 255 bytes, changing nothing; otherwise well-formed |
| `Socks5Addr.AddrPort.SetIPv6` | socks5/addr.go:71-78 | panics exactly without a 16-byte form; otherwise well-formed |
| `Socks5Addr.ByteStream.ReadByte` | socks5/utils.go:17-26 | takes exactly the first byte, or nothing at the end |
| `Socks5Session.HandlerCalledExactly` | socks5/server.go:153-237 | for every byte stream the Handler is called at most once, and exactly when a valid transcript begins the stream (and the client is there to be answered) |
| `Socks5Session.SpokenIsHandled` | socks5/server.go:153-237 | after a valid transcript the Handler gets the encoded address and every later byte is left for the relay |
| `Socks5Replies.SpokenIsAnswered` | socks5/server.go:196-240 | after a valid transcript the server has written exactly the welcome and the reply, or for a bind the two replies, that command and outcomes call for: granted with the right address, or failed with a status that reports the error; relayed exactly if granted to the end |
| `Socks5Replies.StatusReports` | socks5/conn.go:95-118 | every error is reported with exactly one status, never 0: the sentinel errors' own, else by the words its text contains, refused before unreachable (with or without network) before blocked or not allowed |
| `Socks5Replies.MentionsExactly` | socks5/conn.go:104-113 | the search finds a word exactly if it stands somewhere in the text |
| `Socks5Replies.UnreadIsReported` | socks5/server.go:191-195 | an admitted client whose request cannot be read is sent the failure that reports why, and no call is made |
| `Socks5Replies.UnreadStatus` | socks5/conn.go:56-83 | an unknown address type is status 8, a changed version or an early end status 1 |
| `Socks5Replies.NoMethodIsRefused` | socks5/server.go:184-189 | without an acceptable method the client is sent 5, 255 and the session is over |
| `Socks5Replies.WrongPasswordIsRefused` | socks5/server.go:139-144 | credentials the guarder turns down are answered 1, 255 and the session is over |
| `Socks5Replies.OtherVersionIsDropped` | socks5/conn.go:38-44 | another version is read and not answered |
| `Socks5Replies.BadCredentialsAreDropped` | socks5/server.go:118-124 | credentials of another version are not answered |
| `Socks5Replies.DialOctets` | socks5/conn.go:38-83 | the octets of a dial without authentication |
| `Socks5Replies.BindOctets` | socks5/server.go:114-148 | the octets of a bind to a domain behind a password |
| `Socks5Session.HandledWasSpoken` | socks5/server.go:153-237 | a call implies that the consumed bytes are exactly a handshake, the credentials its first acceptable method wants and the guarder accepts, and the request passed on |
| `Socks5Session.LoopSelects` | socks5/server.go:106-151 | the loop over offered methods does what the first acceptable one in client order does, and nothing for the others |
| `Socks5Server.Connection.ReadHandShake` | socks5/conn.go:38-54 | consumes and returns what the handshake function says, and sets the version |
| `Socks5Server.Connection.Authenticate` | socks5/server.go:106-151 | one method tried, in every outcome of reads, writes and guarder |
| `Socks5Server.Connection.ReadRequest` | socks5/conn.go:56-83 | consumes and returns what the request function says |
| `Socks5Server.Connection.SendResponse` | socks5/conn.go:85-93 | two writes, either of which may fail |
| `Socks5Server.Connection.Greet` | socks5/server.go:171-189 | the imperative handshake and method loop is the machine's login |
| `Socks5Server.Connection.Serve` | socks5/server.go:196-237 | dial, bind and unsupported requests, with every failure reported |
| `Socks5Server.Connection.Handle` | socks5/server.go:153-237 | the whole imperative session is the machine's, so the three session theorems hold of it |
| `IPRules.IPRuleSet.Contains` | iprule.go:124-138 | the early-exit loop is the order-free verdict: some include rule holds and no exclude rule's own test does |
| `IPRules.VerdictUnordered` | iprule.go:124-138 | the verdict depends only on which rules are present |
| `IPRules.VerdictExactly` | iprule.go:124-138 | the verdict on an address that is not mapped, in plain numbers: some include prefix has it, and every exclude prefix has it, where a prefix has an address of its family without zone that shares its block of 2^(width - bits) numbers |
| `IPRules.VerdictMapped` | iprule.go:28-33 | the verdict on an IPv4-mapped address is the one on the IPv4 address it stands for |
| `IPRules.PrefixContainsExactly` | iprule.go:31-33 | comparing leading bits is sharing that block |
| `IPRules.TenEight` | iprule.go:124-138 | 10.0.0.0/8 has 10.1.2.3 and not 11.0.0.0 |
| `IPRules.RuleUnmaps` | iprule.go:28-33 | an IPv4-mapped address is treated like its IPv4 address, whatever its zone, and an IPv6 prefix contains neither |
| `IPRules.BlockedBy` | iprule.go:118-127 | a nil set blocks nothing |
| `IPRules.IPRuleSet.Add` | iprule.go:144-152 | appends unless present, and says so |
| `IPRules.IPRuleSet.Remove` | iprule.go:155-164 | the in-place shift drops the rule and keeps the others in order |
| `IPRules.RunKeepsOrder` | iprule.go:144-164 | from the empty set, any sequence of additions and removals leaves exactly the members of the mathematical set, each once, ordered by when they were last inserted |
| `RuleText.UnmarshalText` | iprule.go:194-219 | rules and errors account for every non-blank non-comment line scanned, in order, errors with zero-based line numbers |
| `RuleText.AccountsUnique` | iprule.go:194-219 | at most one pair of lists accounts for a text |
| `RuleText.ScanExactly` | iprule.go:201-204 | the scanner yields exactly the lines before the first over-long one: all of them if and only if none is |
| `RuleText.DropCRExactly` | iprule.go:201-204 | one carriage return before a line end goes with it |
| `RuleText.SpaceExactly` | iprule.go:203 | which characters are blanks, by code point |
| `RuleText.LinesJoin` | iprule.go:201-204 | joined again, the lines are the text with its last line ended |
| `RuleText.LinesWhole` | iprule.go:201-204 | no line holds a line end |
| `RuleText.ReadingExactly` | iprule.go:203-213 | blank lines and comments come to nothing, every other line to what its text without the blanks around it parses as |
| `RuleText.TrimExactly` | iprule.go:203 | trimming takes off the blanks at both ends and nothing else |
| `RuleText.EmptyExactly` | iprule.go:37-46 | an empty text and a lone negation sign are the empty rules |
| `RuleText.NegationNegates` | iprule.go:41-46 | a negation sign turns an include rule into the exclude rule of its prefix, and mends nothing |
| `RuleText.SlashedIsPrefix` | iprule.go:57-60 | a text with a slash is the rule of the prefix the codec reads, or wrong |
| `RuleText.BareIsAddress` | iprule.go:47-56 | a text without one is a rule that holds for exactly the address the codec reads, without its zone, or wrong |
| `RuleText.RuleLineParses` | iprule.go:37-77 | a written rule parses back to itself |
| `RuleText.MarshalText` | iprule.go:221-232 | the loop writes one line per rule |
| `RuleText.MarshalledAccounts` | iprule.go:194-232 | reading back any written list of rules with valid prefixes gives that list and no errors, for every codec of addresses that round-trips |
| `PlainText.PlainIsFaithful` | iprule.go:37-77 | a codec of addresses and prefixes that round-trips as `MarshalledAccounts` and `RoundTrip` ask of one exists: their hypothesis is met |
| `RuleText.RoundTrip` | iprule.go:194-232 | the same of the two methods |
| `ServerDial.TryCandidates` | server.go:92-100 | the candidates dialed are exactly the unblocked ones, in order, up to the first that succeeds, whose connection is returned; otherwise the last error |
| `ServerDial.Dial` | server.go:65-105 | refusals dial nothing; a nil error is returned exactly with a connection |
| `ServerDial.Listen` | server.go:107-144 | the same candidates; socket and error agree exactly if something was resolved |
| `ServerDial.AdmittedExactly` | server.go:92-100 | the list of dialed candidates holds each admitted one once, in order, and no blocked one |
| `ServerDial.RefusalExactly` | server.go:65-90 | a dialer refuses exactly for a bad port, else for a protocol other than tcp, tcp4 or tcp6 with anything behind a colon, else for a failed lookup, each with its error; likewise the listener for ip and udp |
| `ServerDial.BaseExactly` | server.go:45-50 | the base protocol is the given one exactly if the protocol is it, alone or before a colon |
| `ServerDial.BaseProtocolIs` | server.go:45-50 | what stands before the first colon |

## Left out

- Correlation.CallbacksGetTheirOwnAnswer: the one-outstanding discipline is sufficient; the exact condition is that of `Correlation.MisroutedExactly`.
- Correlation.MisroutedExactly: requests are told apart by their number, so two goroutines of one end that both wait for an `X` are not told apart.
- Tunnel.Conn.CloseWithCode: the stored error, the websocket's own close and the cancelling of the context are outcomes for others and not fields here.
- Tunnel.Conn.CancelDial: the close attempted afterwards when the answer had already come waits with the lock held, and is not part of it.
- PooledClient.TunnelClient.GetIdleConn: the refill (client.go:163-165) is a step of its own.
- PooledClient.TunnelClient.DialReturned: closing the connection during a shutdown (client.go:174-181) moves it between no pools and is not modelled.
- PooledClient.TunnelClient.ListenReturned: likewise (client.go:210-217).
- RuleText.MarshalledAccounts: prefixes that `netip` calls invalid are excluded; their text form is not an address. `PlainText` shows that what is asked of the codec can be met. Text is characters rather than UTF-8 bytes, and the library's address text is any codec that round-trips.
- Tunnel.Conn.HandleStreamData: packet mode is modelled by `PacketFrame`; the packet data channel and its goroutine are not.
- Tunnel.Conn.FinishDial: the reported remote address is not kept, and the local pipe is an identifier; the one-shot closer shared by the two halves of `newConnPipe` is not modelled.
- Socks5Server.Connection.Serve: the addresses reported for a bind are arbitrary, and a marshalling panic for an ill-formed one counts as an error; `AddrPortFromNetAddr` failing there, which its comment calls unreachable, is not modelled.
- Socks5Server.Connection.SendResponse: a write succeeds whole or not at all.
- ServerDial.Dial: resolver and underlying dialer are given outcomes; the address strings handed to the dialer are the candidates themselves.
- L2TP.EncodeTo: the encoder's padding loop has an empty range, so no pad is emitted and none is claimed.
- Cancelled dials and listens in the agreement claims: that branch drops a pending reply, or waits for a reply with the lock already held; `Correlation` covers the drop, and the wait is a lock that never opens.
- Packet-mode teardown in the agreement claims: closing a packet pipe sends no command and changes no status.
- Ownership.OrphanFreeExactly: it is about connections obtained for open requests; the local pipes of an end's own dials belong to their callers. A cancelled dial whose answer had already come blocks the end and is left out.
- Status writes outside the lock (conn.go:371, conn.go:489) are steps of their own; lock-held regions are atomic.
- The polling loop of Shutdown and the spawning of goroutines: they appear as steps of `ClientPools`, because callers and watchers interleave with them.
- The websocket library, DNS, `net.Dial`, pings, timers, deadlines and HTTP options appear only as outcomes.
- UDP forwarding in SOCKS5, `MemoryUserGuarder`, configuration, loggers, command-line programs and the mobile client: plumbing, or easy members.
