# Verification of the e36mc tunnel

e36mc is a reverse tunnel for Minecraft. A relay (Go) accepts players, reads one
handshake packet from each, finds the session of the host by the subdomain in
it, sends NEW_CONN to the host's mod (Java), waits for the mod to open a data
connection with CONN_READY, replays the handshake on it and copies bytes both
ways. This project models the relay and the tunnel client of the mod in Dafny
and proves what they guarantee, for all inputs, all runs and all interleavings.

`dafny verify dfyconfig.toml` checks everything.

## The modules

| module | subject |
|---|---|
| `Wrappers`, `Bytes`, `Streams` | option and result types; bytes and bit operators; connections that deliver in chunks of any size, `bufferingReader` |
| `VarInt`, `Handshake`, `Routing` | `readVarInt`, `parseMinecraftHandshake`, `extractSubdomain`, each as code and as a function with its properties |
| `Frames`, `HalfWrites` | the length-prefixed frames, Go and Java readers and writers; concurrent writers that write whole frames, and writers that write prefix and body apart |
| `BytePath`, `BytePathRuns` | one bridged pair from the player to the LAN server and back, as a machine of copy loops; its runs, and when everything gets through |
| `Traffic` | counting readers, copy loops, the sampled speeds |
| `Rendezvous` | the protocol between players, data connections, control loops and the statistics loop, as a transition system with one step per lock operation, critical section, channel operation or network call |
| `RendezvousInvariant`, `RendezvousSteps` | its inductive invariant, and that every step keeps it |
| `RendezvousProperties`, `Stranding`, `Answers`, `Service`, `EndToEnd` | what follows in every reachable state and on every run |
| `RendezvousRuns` | runs of the machine, step by step, to states the results speak of |
| `Sessions`, `Control` | `Session`, `SessionManager`, `handleAuth` and the end of `controlLoop` as classes and methods that update fields in place |
| `Heartbeat` | the select loop of `controlLoop` in discrete time |
| `Users`, `UsersFile` | `UserStore` as a class, and the users file under concurrent saves and restarts |
| `TunnelRuns`, `TunnelStarts`, `TunnelAuths`, `TunnelListens`, `TunnelClient` | `start`, `stop` and `connect` of the mod as threads, when a start goes wrong, when an AUTH follows an AUTH_ERR, what follows an AUTH_OK, and `connect` as code |

In `Rendezvous` an object is named by the thread that makes it: a session by its
control handler, a channel by its player handler, a data connection by its
CONN_READY handler. A channel keeps its history (all sends and closes), which
the code does not have. The classes in `Sessions` state their effect with the
update functions of `Rendezvous` (`Registered`, `Dropped`, `Closed`), so a step
of the machine and a method of a class are the same change.

## Assumptions

- Go `int` has 64 bits. Addresses, domains and subdomains are ASCII, one
  character a byte, so lower-casing keeps lengths.
- A frame body stands for one JSON envelope, and the JSON form of a user list
  reads back as that list.
- conn_ids, UUIDs and random suffixes are arbitrary and may collide. Where a
  result needs distinct conn_ids it says so (`Distinct`, `OnlyUser`).
- Network calls return, with any outcome. A connection ends with EOF or an error
  at any point. Time is discrete.
- Token comparison is equality.

## Where code and expectation differ

- `readVarInt` accepts six bytes and values of up to 42 bits without a sign; the
  Minecraft protocol has five bytes and 32 bits. The packet length is bounded
  but not compared with the bytes consumed (`Handshake.Packet.Acceptable`).
- A domain that is configured with a final dot is only reached by clients that
  send a further dot (`Routing.AdvertisedNameRoutes` has the exact condition).
- A subdomain with a character in A..Z is never found
  (`Routing.ExtractedIsLower`).
- conn_ids are the first eight characters of a UUID. They need not be unique,
  although the comment at relay-server/session.go:49 says so.
- RemoveSession works by UserID, so the loop of a kicked session closes the
  newer session (`RendezvousProperties.RemovalHitsOwnUnlessKicked` says when,
  `RendezvousRuns.KickedLoopCanRemoveNewer` is a run).
- A delivered data connection is lost exactly when its player has left its
  select without it, and then stays open in a channel nobody reads
  (`Stranding.LostIffStranded`, `RendezvousRuns.ConnCanBeStranded`).
- NEW_CONN is sent before the player is registered, so a fast CONN_READY can be
  refused (`RendezvousRuns.EarlyReadyCanBeRefused`). For a call on its own
  `Sessions.SessionManager.HandleConnReady` has the exact condition: NotFound iff
  no mapped session has the conn_id. Among other threads, a CONN_READY whose
  handler takes the read lock after the registration is delivered exactly when
  neither the timeout of the player nor another CONN_READY with the same conn_id
  came first (`Answers.RegisteredIsAnswered`).
- The two writes of the relay's WriteMessage are not protected. As long as every
  body starts with a byte other than zero, as JSON does, the reader gets a merge
  of the messages exactly when no other write falls between the prefix and the
  body of a frame (`HalfWrites.MergeIffUnbroken`). Once one has, nothing written
  later can mend it (`HalfWrites.RescueIffUnbroken`). The mod writes whole frames
  (`Frames.InterleavingDecodes`).
- Overlapping saves can leave an older user store in the file although every
  request is done (`UsersFile.OverlappingSavesCanLoseAnUpdate`). The file is up
  to date exactly when the last rename is of a snapshot taken after the last
  change (`UsersFile.FreshIffRenamedLate`).
- A guest stays in the store when AUTH_OK could not be sent
  (`Control.HandleAuth`).
- The loop looks for a missing pong at ticks only, and times out exactly at the
  first tick before which neither its start nor a pong lies at most 45 seconds
  back (`Heartbeat.TimesOutIff`, `Heartbeat.SilenceIsBounded`). A pong exactly 45
  seconds late comes in time or not depending on whether it or the tick of the
  same moment is selected first (`Heartbeat.AnswerAtTimeoutDependsOnOrder`).
- An AUTH_ERR need not be the last word: another AUTH can follow exactly when it
  had no reason, the attempt was not the fifth and the thread had not been
  interrupted (`TunnelAuths.AuthAfterErrIff`, `TunnelRuns.ErrWithoutReasonRetries`
  is a run).
- A `start` that finds the running flag clear can leave it set without a connect
  thread exactly when a `stop` is under way at that moment or an earlier `stop`
  has shut the executor down (`TunnelStarts.StartSticksIff`). This covers a start
  in the middle of a stop and every start after one; the flag then stays set
  until another stop, or an older connect thread that ends, clears it. The mod
  starts every client once, for which `TunnelRuns.SingleStartEndsIdle` holds.

## Model

| member | source | states |
|---|---|---|
| `VarInt.Read` | relay-server/proxy.go:22-42 | the shift-and-or loop returns the base-128 sum of the digits, consumes and records exactly the bytes of the number, and fails at the end of input or after six bytes, under any chunking |
| `VarInt.SucceedsIffEnds` | relay-server/proxy.go:22-42 | reading succeeds iff one of the first six bytes has a clear top bit |
| `VarInt.TakeIffVarInt` | relay-server/proxy.go:22-42 | value v is read from n bytes iff these are one complete VarInt whose digits sum to v |
| `VarInt.ValueFitsIn42Bits` | relay-server/proxy.go:22-42 | a value read from n bytes is below 2^(7n), so below 2^42 |
| `VarInt.RoundTrip` | relay-server/proxy.go:22-42 | every value below 2^42 is read back from its canonical encoding, whatever follows |
| `VarInt.PrefixFree` | relay-server/proxy.go:22-42 | no accepted encoding is a proper prefix of another |
| `VarInt.TakeStable` | relay-server/proxy.go:22-42 | unless it ran out of input, the outcome does not depend on what follows |
| `Handshake.ReadString` | relay-server/proxy.go:44-58 | the string reader returns the announced bytes or the right error, and consumes and records the same bytes |
| `Handshake.ParseMinecraftHandshake` | relay-server/proxy.go:60-111 | on every success and error path recorded ++ remaining = input, at most 287 bytes are consumed, and address and error depend on the byte stream only |
| `Handshake.AcceptsPacket` | relay-server/proxy.go:60-111 | any acceptable handshake packet is accepted, exactly its bytes are consumed, and its address comes out |
| `Handshake.AcceptedIffPacket` | relay-server/proxy.go:60-111 | a stream is accepted with address a after n bytes iff its first n bytes are an acceptable packet with address a |
| `Handshake.ParseStable` | relay-server/proxy.go:60-125 | once the parser stops, more bytes change nothing; while it asks for more it has used everything it got |
| `Handshake.PacketLimit` | relay-server/proxy.go:72-75 | a stream with packet length n is refused as too large iff n > 1024 |
| `Handshake.StringLimit` | relay-server/proxy.go:50-52 | an address length is refused iff it is above 255, and the address is read iff it is not and the bytes are there |
| `Streams.BufferingReader.ReadFull` | relay-server/proxy.go:113-125 | reading in full through the recording reader records exactly the bytes handed on |
| `Routing.ExtractsIff` | relay-server/proxy.go:127-145 | the answer is `sub` iff the address is p, a dot, q, perhaps one more dot, and perhaps a marker that starts with NUL, where p is `sub` and q the domain up to letter case, and `sub` is not empty and has no character in A..Z |
| `Routing.ExtractedIsLower` | relay-server/proxy.go:127-145 | no name that comes out has a character in A..Z |
| `Routing.LowerIff` | relay-server/proxy.go:134-140 | t is s in lower case iff it is s up to letter case and has no character in A..Z |
| `Routing.AdvertisedNameRoutes` | relay-server/proxy.go:127-145 | the advertised name in any letter case, with optional final dot and NUL-led marker, leads back to the subdomain iff the dot is there or the domain does not end in one |
| `Routing.EncodedIsAcceptable` | relay-server/proxy.go:60-111 | the encoding of a handshake with an address of at most 255 bytes is an acceptable packet |
| `Routing.HandshakeRoutes` | relay-server/proxy.go:173-193 | a connection that starts with an acceptable packet with the advertised name is looked up under its subdomain, with the same exact condition, whatever the player sends next |
| `Routing.RoutesIff` | relay-server/proxy.go:173-193 | a player is looked up under `sub` iff its bytes start with an acceptable packet whose address is extracted to `sub`; any other player is turned away |
| `Routing.EncodedHandshakeRoutes` | relay-server/control.go:85-89 | the round trip: the advertised name in any variant, encoded as a handshake with any version, port and next state, is parsed and extracted back to its subdomain, with the same exact condition |
| `Routing.AdvertisedNameItselfRoutes` | relay-server/control.go:85-89 | its plainest case: the name as told to the mod, for a domain without a final dot |
| `Frames.GoWriteMessage` | relay-server/protocol.go:55-84 | sends the whole frame, nothing if the body is too large, or a part of the frame if a write fails |
| `Frames.GoReadMessage` | relay-server/protocol.go:86-109 | returns the body of the first frame and consumes exactly that frame, under any chunking; rejects lengths above 65536 and truncated frames |
| `Frames.JavaReadFully` | mod/src/main/java/com/e36mc/TunnelProtocol.java:109-118 | fills the array in place with the next bytes, or fails iff there are too few |
| `Frames.JavaReadMessage` | mod/src/main/java/com/e36mc/TunnelProtocol.java:67-83 | the same result and the same consumption as the relay's reader, from the signed length |
| `Frames.SameLengths` | relay-server/protocol.go:92-95 | the unsigned check of the relay and the signed check of the mod accept the same prefixes and read the same length |
| `Frames.LengthLimit` | relay-server/protocol.go:92-95 | a prefix is refused as too large iff the length is above 65536, and a message is read iff it is not and its bytes are there |
| `Frames.HighByteFirst` | relay-server/protocol.go:72-95 | the first of the four length bytes is worth 2^24, the last 1 |
| `Frames.PrefixRoundTrip` | relay-server/protocol.go:72-78 | the four length bytes read back as the length |
| `Frames.DecodeStream` | relay-server/protocol.go:55-109 | decoding the concatenation of written frames gives exactly these bodies, and then what the trailing bytes give |
| `Frames.ReadNStream` | relay-server/protocol.go:55-109 | reading as many messages as were written returns them and leaves the trailing bytes untouched |
| `Frames.TruncatedStream` | relay-server/protocol.go:86-109 | a stream cut anywhere decodes to exactly the frames that are complete, and then an error |
| `Frames.TakeFrameStable` | relay-server/protocol.go:86-109 | a complete message or an oversize error does not depend on what follows |
| `Frames.InterleavingDecodes` | mod/src/main/java/com/e36mc/TunnelProtocol.java:48-64 | whatever the order of whole-frame writes by any number of writers, the stream decodes to a merge that keeps the order of each writer |
| `Frames.TornFrames` | relay-server/protocol.go:77-82 | two prefixes in a row make the reader return a wrong first body |
| `HalfWrites.MergeIffUnbroken` | relay-server/protocol.go:55-84 | with prefix and body as two writes, any number of writers and any complete schedule: the reader gets a merge that keeps each writer's order iff no other write falls between the prefix and the body of a frame |
| `HalfWrites.UnbrokenReadsSoFar` | relay-server/protocol.go:55-84 | a schedule that stops anywhere, with the last write cut at any byte as when it fails: if nothing came in between, the reader gets messages that keep each writer's order, all of those written whole if no write was cut |
| `HalfWrites.RescueIffUnbroken` | relay-server/protocol.go:55-84 | a schedule stopped anywhere can be completed to a stream that reads as a merge iff no other write has fallen between a prefix and its body so far |
| `HalfWrites.TornSchedule` | relay-server/control.go:145-150 | a schedule of two writers that sends the bytes of TornFrames, and no merge is read |
| `BytePath.Transparent` | relay-server/proxy.go:225-279 | at every moment of every run each end has received a prefix of what the other end sent |
| `BytePath.MissingBytes` | mod/src/main/java/com/e36mc/TunnelClient.java:238-297 | the bytes that have not arrived are, in order, those read but not written by the second loop, in the connection, read but not written by the first loop, and not read |
| `BytePath.StoppedForGood` | mod/src/main/java/com/e36mc/TunnelClient.java:274-284 | a loop that has stopped never writes again, so what it held and what it has not read is lost |
| `BytePath.StrippedAndReplayed` | relay-server/proxy.go:216-231 | once bytes are copied, exactly the CONN_READY frame was taken off the data connection and the whole handshake was sent on |
| `BytePath.RunKeepsInv` | mod/src/main/java/com/e36mc/TunnelClient.java:203-297 | the invariant of the byte path holds in every state of every run |
| `BytePathRuns.HandshakeCanArrive` | relay-server/proxy.go:173-231 | a run in which the handshake, any acceptable packet, has been replayed and has reached the LAN server, with both copy loops at work |
| `BytePathRuns.EverythingCanArrive` | relay-server/proxy.go:250-279 | from every state of every run in which bytes are copied and all four loops are at work, some continuation brings all that both ends have sent, and whatever else they send, to the other end |
| `BytePathRuns.AllArrivesIff` | mod/src/main/java/com/e36mc/TunnelClient.java:238-297 | what both ends send from then on can arrive iff none of the four loops has stopped |
| `BytePathRuns.BothDirectionsWork` | relay-server/proxy.go:173-279 | for any acceptable handshake, any bytes after it, any answer and any CONN_READY body, a run delivers all of it in both directions |
| `BytePathRuns.AnyPrefixMayBeAll` | mod/src/main/java/com/e36mc/TunnelClient.java:274-297 | no more than a prefix is certain: for any number of bytes in either direction some run ends with exactly that many delivered |
| `BytePathRuns.AnyLoopCanStop` | mod/src/main/java/com/e36mc/TunnelClient.java:238-287 | each of the four loops may stop in every state |
| `Traffic.CopyCounted` | relay-server/proxy.go:236-274 | the copy loop counts exactly the bytes it reads modulo 2^64, and writes all of them or, if a write fails, a prefix |
| `Traffic.CopyStream` | mod/src/main/java/com/e36mc/TunnelClient.java:290-297 | all of the input arrives, or a prefix if a write fails |
| `Traffic.MetersAgree` | relay-server/session.go:115-136 | under any interleaving of reads and ticks the counters equal the bytes read modulo 2^64, each speed the bytes between two samples, and the speeds add up to the last sample |
| `Traffic.TotalsAreBytesRead` | relay-server/proxy.go:242-248 | the totals in that statement are the bytes read in each direction |
| `Traffic.NoWrapIsExact` | relay-server/session.go:115-136 | below 2^64 bytes counters and speeds are the plain numbers |
| `Traffic.TickSamples` | relay-server/session.go:115-136 | after a whole tick, with reads at any point of it, the kept counters are the bytes read up to its two loads and the speeds the bytes since the loads of the tick before |
| `RendezvousSteps.StepKeepsInv` | relay-server/session.go:54-202 | every step of every thread keeps the invariant of locks, sessions, pending entries, channel histories and connections |
| `RendezvousSteps.CloseIsSafe` | relay-server/session.go:85-98 | Close never closes a channel that was closed before or the same channel twice |
| `RendezvousProperties.ChannelsAreOneShot` | relay-server/session.go:54-98 | in every interleaving, with colliding conn_ids, a channel sees at most one event in its life, there is no panic, and a send never blocks |
| `RendezvousProperties.BridgedPairsMatch` | relay-server/control.go:172-214 | a bridged pair shares its conn_id, the data connection presented the token of the session the player was routed to, and that session has the subdomain of the player's handshake |
| `RendezvousProperties.DeliveryIsInjective` | relay-server/session.go:64-78 | no player gets two data connections, and no data connection goes to two players |
| `RendezvousProperties.ConnIsInOnePlace` | relay-server/control.go:172-214 | every data connection is in exactly one of handler, closed, one channel, one player |
| `RendezvousProperties.StrandedOnlyByLateTimeout` | relay-server/session.go:187-202 | a buffered connection that no select will receive belongs to a player that timed out after the entry was taken |
| `Stranding.LostIffStranded` | relay-server/session.go:187-202 | no continuation of the run lets a player receive a delivered connection iff its player has left its select without it |
| `Stranding.DeliveryLosesIffLate` | relay-server/session.go:64-78 | a send is never blocked, and loses its connection in that sense iff the player has left its select |
| `Stranding.TimeoutLosesBuffered` | relay-server/session.go:187-202 | a timer chosen over a buffered connection loses it, although it could be received until then |
| `Stranding.StrandedForEver` | relay-server/session.go:187-202 | a stranded connection stays in the channel for the rest of the run: never received, closed by no handler |
| `RendezvousProperties.ReturnedWaiterHasNoEntry` | relay-server/session.go:187-202 | a player that is done has left no entry in any pending map |
| `RendezvousProperties.DistinctIdsLoseNothing` | relay-server/session.go:54-62 | with distinct conn_ids a waiter is registered, or about to be sent to, or had its one event, and only one of these |
| `RendezvousProperties.DistinctIdsDeleteOwn` | relay-server/session.go:195-200 | with distinct conn_ids the deletion after a timeout can only hit the waiter's own entry |
| `RendezvousProperties.TimeoutSparesOthersIff` | relay-server/session.go:187-202 | in every interleaving the deletion after a timeout leaves all other waiters registered iff none of them has the same session and conn_id |
| `Answers.RegisteredIsAnswered` | relay-server/control.go:172-214 | a CONN_READY whose handler takes the read lock when the player with its conn_id and token is registered in a mapped session ends delivered to that player iff the player's timeout did not remove the entry and no other CONN_READY took it; the session cannot be closed meanwhile. The conn_id must be used by no other player |
| `Answers.WrongTokenIsRefused` | relay-server/control.go:184-208 | a CONN_READY with the conn_id of a player registered in a mapped session and another token ends closed and undelivered, and refused unless the entry was withdrawn or taken before it was looked at. The conn_id must be used by no other player |
| `Answers.RefusalIsFinal` | relay-server/control.go:192-206 | a handler that looks at a session with its conn_id and another token, or finds its entry gone after the token matched, is refused for good and its connection closed, also when other sessions have the same conn_id |
| `Service.PlayerCanBeServed` | relay-server/proxy.go:173-234 | from every state with no lock held, a player about to look up its subdomain can be bridged to any new connection with the token of any mapped session with that subdomain, under any conn_id, also one in use |
| `Service.HowPlayersEnd` | relay-server/proxy.go:173-234 | each ending of a player handler has its one cause: no mapped session with its subdomain, NEW_CONN not sent, its channel closed, the deletion after the timeout, the replay failed, the bridge over; the data connection is closed in the last two |
| `Service.ReplayDecides` | relay-server/proxy.go:225-234 | the bridge starts iff the handshake could be replayed; if not, the data connection is closed |
| `Service.TickVisitsEverySession` | relay-server/session.go:115-136 | a tick does not end before it held the mutex of every session mapped at its start |
| `RendezvousProperties.SessionLifecycle` | relay-server/session.go:138-165 | keys are UserIDs, no session is mapped twice, a session is closed at most once, and for every reader it is mapped iff it is not closed |
| `RendezvousProperties.CloseWakesWaiters` | relay-server/session.go:85-98 | every waiter registered at a close can then return with the session closed |
| `RendezvousProperties.LateWaiterTimesOut` | relay-server/session.go:187-202 | a waiter that registers on a closed session can leave only by timeout |
| `RendezvousProperties.RemovalHitsOwnUnlessKicked` | relay-server/control.go:105-106 | the loop removes its own session iff that was not closed before; after a kick it closes a newer one of the same user if there is one |
| `RendezvousRuns.PlayerCanBeBridged` | relay-server/proxy.go:173-234 | a run in which a player is bridged to the data connection that answers it |
| `RendezvousRuns.ConnCanBeStranded` | relay-server/session.go:187-202 | a run in which a data connection is stranded |
| `RendezvousRuns.KickedLoopCanRemoveNewer` | relay-server/control.go:105-106 | a run in which the loop of a kicked session is about to close the newer session of its user |
| `RendezvousRuns.EarlyReadyCanBeRefused` | relay-server/proxy.go:209-215 | a run in which a CONN_READY between NEW_CONN and the registration of the player is refused and its connection closed |
| `RendezvousProperties.MutexHolderRuns` | relay-server/session.go:54-98 | the holder of a session mutex never waits for a lock and can always take a step |
| `RendezvousProperties.DeadlockFree` | relay-server/session.go:85-202 | whenever a thread is blocked at a lock, another thread that holds a lock can take a step |
| `RendezvousProperties.OnlyLocksBlock` | relay-server/session.go:54-202 | a thread that has not ended and is not at a lock operation can take a step |
| `RendezvousProperties.CriticalSectionsEnd` | relay-server/control.go:185-208 | every step of a lock holder brings its release closer |
| `EndToEnd.AdvertisedPlayerIsRouted` | relay-server/proxy.go:173-207 | a player that asks for the advertised name of a subdomain finds exactly the mapped sessions with that subdomain, and is turned away only if there is none |
| `EndToEnd.AdvertisedPlayerIsBridged` | relay-server/proxy.go:173-234 | if it is bridged, then to a data connection with the token of a session with that subdomain |
| `Sessions.Session.AddPendingConn` | relay-server/session.go:54-62 | registers a new open, empty channel under the conn_id, over any entry that was there |
| `Sessions.Session.ResolvePendingConn` | relay-server/session.go:64-78 | fails iff there is no entry; else removes it and leaves the connection in its channel |
| `Sessions.Session.Close` | relay-server/session.go:85-98 | empties the map and closes every channel in it exactly once, in any order |
| `Sessions.Session.Forget` | relay-server/session.go:195-200 | whatever channel is under the conn_id, also another waiter's, stays open and empty but is registered nowhere any more; the other entries stay |
| `Sessions.TimeoutRestoresIffIdWasFree` | relay-server/session.go:187-202 | a wait that registers and times out with nothing else in between leaves its session as it was iff the conn_id was not in use; otherwise the entry of another waiter is gone, and all other entries stay (for any interleaving see `RendezvousProperties.TimeoutSparesOthersIff`) |
| `Sessions.SessionManager.CreateSession` | relay-server/session.go:138-153 | closes the session of the user if there is one, and maps the new one |
| `Sessions.SessionManager.RemoveSession` | relay-server/session.go:155-165 | closes and unmaps whatever session the user has |
| `Sessions.SessionManager.GetSessionBySubdomain` | relay-server/session.go:167-178 | finds some session with the subdomain iff there is one |
| `Sessions.SessionManager.FindPending` | relay-server/control.go:184-190 | finds some session that has the conn_id iff there is one |
| `Sessions.SessionManager.HandleConnReady` | relay-server/control.go:172-214 | delivers iff the session found has the same token, to the channel of that entry and nobody else; otherwise closes the connection and changes no session, with NotFound iff no mapped session has the conn_id |
| `Sessions.SessionManager.SampleAll` | relay-server/session.go:115-136 | a tick samples every session and changes nothing else |
| `Control.HandleAuth` | relay-server/control.go:40-100 | each answer is given exactly under its condition; the user is one with the token or a new guest; the session is that user's, an older one is closed and those of other users stay as they are; the advertised name is its subdomain and the domain; if AUTH_OK is not sent the session goes and the guest stays |
| `Control.GuestNameRoutes` | relay-server/control.go:60-85 | the name a guest is told leads back to its subdomain in every variant, with the same exact dot condition |
| `Control.EndControl` | relay-server/control.go:105-121 | removes and closes the user's session, and in public mode the user if it is a guest |
| `Control.RoutePlayer` | relay-server/proxy.go:189-207 | finds a session whose subdomain the address leads to iff there is one |
| `Heartbeat.ControlLoop` | relay-server/control.go:103-170 | the loop takes the turns of the specification and stops at the first exit |
| `Heartbeat.SilenceIsBounded` | relay-server/control.go:103-170 | with punctual ticks the loop goes on at most 60 seconds after the last pong, and times out only after more than 45 |
| `Heartbeat.TickTimesOutIff` | relay-server/control.go:103-170 | at a tick whose ping could be sent, a running loop goes on iff the start or a pong processed before the tick is at most 45 seconds ago |
| `Heartbeat.TimesOutIff` | relay-server/control.go:103-170 | on any run the loop ends by timeout iff at some tick the start and every pong processed before it are more than 45 seconds ago, and nothing before that tick ended the loop |
| `Heartbeat.AnsweredIsNeverTimedOut` | relay-server/control.go:103-170 | a case of it: a mod whose every ping is answered in less than 45 seconds is never timed out, on any run |
| `Heartbeat.AnswerAtTimeoutDependsOnOrder` | relay-server/control.go:12-16 | with an answer after exactly 45 seconds the loop times out if the tick is selected before it, and goes on if it is selected before the tick |
| `Users.UserStore.LoadFromFile` | relay-server/auth.go:35-52 | on success the store is that of the list, a later record replacing an earlier one; on failure nothing changes |
| `Users.UserStore.Authenticate` | relay-server/auth.go:54-65 | finds some user with the token iff there is one |
| `Users.UserStore.UpdateUser` | relay-server/auth.go:67-82 | in place, the one record gets the subdomain, and the token unless that is empty; the others stay; fails iff the user is unknown |
| `Users.UserStore.AddGuest` | relay-server/control.go:60-74 | adds a record Guest_suffix with subdomain guest-suffix, the token, the clock and the guest mark; the others stay |
| `Users.UserStore.CleanUpGuest` | relay-server/control.go:105-121 | removes the user iff it is a guest, and nobody else |
| `Users.UserStore.AddUser` | relay-server/web.go:94-125 | adds the record with the fields of the request and the time of the clock unless a field is missing; the others stay |
| `Users.UserStore.DeleteUser` | relay-server/web.go:127-151 | removes the user unless the id is missing, and nobody else |
| `Users.UserStore.Snapshot` | relay-server/auth.go:97-105 | lists every record once, in any order, and loading the list gives the store |
| `Users.ApplyKeepsKeys` | relay-server/auth.go:67-82 | every request keeps key = UserID, and none but adding changes creation time or guest mark |
| `Users.UpdatesTwice` | relay-server/auth.go:67-82 | an update sets the subdomain, and the token unless it is empty, and nothing else; a token just set is known, also after a further update with an empty token, which only moves the user |
| `Users.GuestComesAndGoes` | relay-server/control.go:60-121 | a guest is known while it is there, and cleaning it up restores a store that had no user of that name |
| `Users.WhoGoes` | relay-server/control.go:108-114 | a clean-up removes a user iff it is a guest; a deletion removes it unless the id is empty |
| `Users.AddedAndDeleted` | relay-server/web.go:94-151 | an added user has the fields of the request and the time of the clock, is known, and is gone after its deletion |
| `Users.LoadIsKeyed` | relay-server/auth.go:35-52 | a loaded store has key = UserID |
| `Users.LoadKeepsLast` | relay-server/auth.go:46-50 | a load keeps the last record of each user |
| `Users.LoadRebuilds` | relay-server/auth.go:35-135 | saving and loading rebuilds the same store for every iteration order |
| `Users.OnlyListingsRebuild` | relay-server/auth.go:35-135 | among the lists without a UserID twice, exactly the listings of a store load as that store |
| `UsersFile.FileIsASnapshot` | relay-server/auth.go:97-135 | under concurrent saves, failures and restarts the file can always be read, and holds a complete earlier or current state of the store, with which the relay starts again, no request at work |
| `UsersFile.FreshIffRenamedLate` | relay-server/auth.go:97-135 | on every run, with failures and restarts, the file holds the last state of the store iff the last rename is of a snapshot taken after the last change since the relay started |
| `UsersFile.SerialSavesAreFresh` | relay-server/auth.go:97-135 | a case of it: if no two saves overlap and none fails, the file holds the current store whenever no request is at work |
| `UsersFile.EveryChangeCanBeSaved` | relay-server/auth.go:97-135 | from every state of every run a request that changes the store can end with the changed store in the file, whatever other requests are at work |
| `UsersFile.SavesEndRequests` | relay-server/auth.go:97-135 | a request is over when its save is done or has failed; a failed save leaves file and store as they are |
| `UsersFile.OverlappingSavesCanLoseAnUpdate` | relay-server/web.go:94-125 | from any start two overlapping additions can end with the second one missing from the file |
| `TunnelClient.Connect` | mod/src/main/java/com/e36mc/TunnelClient.java:95-166 | whatever other threads do, connect ends, has sent at most five AUTHs, with a delay between any two and none after an AUTH_ERR with a reason, has listened for commands to the end after every AUTH_OK, ends refused iff it got an AUTH_ERR with a reason, and leaves the flag clear unless it was interrupted |
| `TunnelClient.ListenForCommands` | mod/src/main/java/com/e36mc/TunnelClient.java:171-197 | returns only after it found the flag clear or the link failed, also in the answer to a ping, throws only after the executor rejected a handler, and leaves the attempt over |
| `TunnelClient.LogIsBounded` | mod/src/main/java/com/e36mc/TunnelClient.java:95-166 | for every sequence of steps a thread can take, the AUTHs are at most five, and none follows an AUTH_ERR with a reason |
| `TunnelClient.AuthAfterErrNeeds` | mod/src/main/java/com/e36mc/TunnelClient.java:95-166 | in every such sequence an AUTH follows an AUTH_ERR of any kind only if that had no reason, was read before the fifth attempt, and the thread had not been interrupted |
| `TunnelClient.PlayableIff` | mod/src/main/java/com/e36mc/TunnelClient.java:95-197 | the logs a connect thread can have are exactly those in which every step comes after its predecessor as the loops of connect and listenForCommands say |
| `TunnelClient.LogListens` | mod/src/main/java/com/e36mc/TunnelClient.java:122-135 | in every such sequence an AUTH_OK is followed by listenForCommands, no AUTH and no end comes before that returned or threw, and a delay lies between any two AUTHs |
| `TunnelClient.ThreadsFollowLogs` | mod/src/main/java/com/e36mc/TunnelClient.java:95-166 | in every interleaving each connect thread is where its own steps take it |
| `TunnelRuns.AuthsAreBounded` | mod/src/main/java/com/e36mc/TunnelClient.java:95-166 | at most five AUTHs a thread, and none after an AUTH_ERR with a reason, in every reachable state of any number of threads |
| `TunnelAuths.AuthAfterErrIff` | mod/src/main/java/com/e36mc/TunnelClient.java:95-166 | from any reachable state in which a thread reads an AUTH_ERR, with or without a reason, some run sends another AUTH iff there was no reason, it was not the fifth attempt and the thread was not interrupted |
| `TunnelListens.CommandsAreReadAfterOk` | mod/src/main/java/com/e36mc/TunnelClient.java:122-197 | from every state in which a thread reads an AUTH_OK with the flag set, it can read any sequence of commands, and then any further one, without another AUTH |
| `TunnelRuns.ErrWithoutReasonRetries` | mod/src/main/java/com/e36mc/TunnelClient.java:136-155 | a run with a second AUTH after an AUTH_ERR without a reason |
| `TunnelRuns.ConnectMakesProgress` | mod/src/main/java/com/e36mc/TunnelClient.java:95-166 | every step but a turn of listenForCommands brings connect closer to its end |
| `TunnelStarts.StartSticksIff` | mod/src/main/java/com/e36mc/TunnelClient.java:56-166 | a start that finds the flag clear can leave it set with no connect thread of its own iff a stop is under way or the executor is down |
| `TunnelStarts.StartSticksAlone` | mod/src/main/java/com/e36mc/TunnelClient.java:56-166 | and if no connect thread was live before, none at all is live then: it was submitted and is over, or rejected because the executor was down |
| `TunnelStarts.OneThreadAPeriod` | mod/src/main/java/com/e36mc/TunnelClient.java:56-62 | with any number of starts a running period has at most one connect thread, and none while its start has yet to submit it; a start that finds the tunnel running adds nothing |
| `TunnelRuns.ConnectEndsItsPeriod` | mod/src/main/java/com/e36mc/TunnelClient.java:56-166 | a connect thread whose start found no stop under way does not end before the flag was cleared after that start |
| `TunnelRuns.SingleStartEndsIdle` | mod/src/main/java/com/e36mc/TunnelClient.java:56-166 | with one winning start the flag is clear once connect has ended |
| `TunnelRuns.StartDuringStopSticks` | mod/src/main/java/com/e36mc/TunnelClient.java:56-90 | a start during a stop can leave the flag set with no connect thread and a dead executor |
| `TunnelRuns.OneTeardownAPeriod` | mod/src/main/java/com/e36mc/TunnelClient.java:67-90 | of any number of stops at most one tears down in a running period, and none if connect ended it |

## Left out

- TLS, certificates, sockets, DNS and process setup: a connection is a byte sequence with an end.
- JSON and Gson bodies, and the dispatch on the first message type: library code and one switch.
- UUID and suffix generation: arbitrary values.
- The web interface except for its three changes of the user store, and the settings: no hard property.
- E36mcMod.java, LanEventHandler.java and the mixin: chat output, reflection and game hooks.
- Real clock jitter, dropped ticks and scheduling fairness: ticks are on schedule, and progress is stated as enabled steps and decreasing measures.
- The finalizers of Go, which may close a connection that nothing refers to any more.
- Memory races on a user record between UpdateUser and a handler that holds the record: a request is one step.
- handlePlayerConnection is not one method: its parts are `Handshake.ParseMinecraftHandshake` and `Control.RoutePlayer`, and their sequence with the wait and the replay is the player thread of `Rendezvous`.
- handleNewConnection and the close of both sockets at the end of bridgeSockets: in `BytePath` a copy loop may stop at any time.
- Sessions.SessionManager.HandleConnReady: the lock operations between its parts are steps of `Rendezvous` only.
- BytePath.Transparent: states prefixes, not full delivery, because the mod closes both sockets at the first end of a direction.
- RendezvousProperties.DeadlockFree: the status request of the web server (relay-server/web.go:58-92) is no thread of the machine. It takes the read lock of the manager, gives it back, and then takes one session mutex at a time, with no lock held.
- TunnelRuns.ConnectEndsItsPeriod: says nothing about a start that finds a stop under way; `TunnelStarts.StartSticksIff` covers every start.
