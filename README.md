# RTSP client session — a Dafny model

This project models the per-client session of the dorsvr RTSP/1.0 server (RFC 2326),
`src/liveMedia/RTSPClientSession.go`. That file handles one client's session across
SETUP, PLAY, PAUSE, TEARDOWN, GET_PARAMETER and SET_PARAMETER. The model has five modules:

- `Wrappers` (`wrappers.dfy`): the `Option` type, standing for Go's nil pointers and interfaces.
- `Format` (`format.dfy`): Go's `%d` and `%08X` renderings, with parsers that invert them.
- `Transport` (`transport.dfy`):
  - the TCP interleaved channel-id rule;
  - the choice of the `Transport:` form for each (multicast, streaming mode) pair;
  - the exact text of a successful SETUP reply;
  - the misbound multicast raw-UDP format (see Findings).
- `Play` (`play.dfy`): which `Scale:` and `Range:` forms a PLAY reply carries.
- `ClientSession` (`session.dfy`): the `Session` class. It holds the media-session binding,
  the single stream state with its stream token, the TCP stream-id counter, the multicast
  and liveness flags, and the last reply written. It also contains the in-session dispatcher.

Calls into code outside the file are handled in two ways:

- Their results are method parameters. This covers the registry lookup, the subsession list,
  the parsed request headers, the connection's addresses and what `getStreamParameters` returns.
- The calls themselves are recorded, with their arguments, in the ghost event log
  `Session.events`. This covers `getStreamParameters`, `startStream`, `pauseStream`,
  `deleteStream`, and the timer start and reset.

A Go run-time panic is modelled as the outcome `Panicked`. The session state is left as it is
at the moment of the panic. Panics come from a nil stream state or media session before a
completed SETUP, a nil subsession, or `subSessions[0]` on an empty list.

## Model

| member | source | states |
|---|---|---|
| `Format.Decimal` | src/liveMedia/RTSPClientSession.go:137-149 | `%d` of a port, TTL or channel id: a sign exactly for negatives, digits otherwise, no leading zero for a non-zero value, and `0` for zero |
| `Format.DecimalRoundTrip` | src/liveMedia/RTSPClientSession.go:137-149 | parsing the printed decimal gives the number back |
| `Format.DecimalInjective` | src/liveMedia/RTSPClientSession.go:137-149 | distinct numbers never print alike |
| `Format.Hex8` | src/liveMedia/RTSPClientSession.go:141-149 | `%08X` of the 32-bit session id is exactly 8 upper-case hex digits |
| `Format.Hex8RoundTrip` | src/liveMedia/RTSPClientSession.go:141-149 | the 8 digits read back as the session id, so nothing is truncated |
| `Format.Hex8Injective` | src/liveMedia/RTSPClientSession.go:141-149 | distinct session ids give distinct `Session:` values |
| `Transport.ResolveChannels` | src/liveMedia/RTSPClientSession.go:72-78 | TCP with RTP id 0xFF: RTP becomes the counter. TCP: RTCP is always counter + 2, so a server-chosen pair differs by 2. Other modes: both ids pass through unchanged |
| `Transport.ChooseSetupReply` | src/liveMedia/RTSPClientSession.go:101-176 | no reply iff the mode is unrecognised; UnsupportedTransport iff multicast over TCP; otherwise the form matches mode and multicast-ness and carries the addresses, the request's client ports, the stream layer's server ports, the TTL, the mode string and the resolved channel ids (the multicast raw-UDP form is the corrected one, see Left out) |
| `Transport.SetupResponseEndsWithSession` | src/liveMedia/RTSPClientSession.go:101-176 | every SETUP 200 reply ends with `Session: `, 8 upper-case hex digits and a blank line, and those digits parse back to the session id |
| `Transport.UnicastUdpReplyCarriesPorts` | src/liveMedia/RTSPClientSession.go:136-149 | a unicast UDP SETUP reply contains `;client_port=<request RTP>-<request RTCP>;server_port=<server RTP>-<server RTCP>\r\n`, so the line ends right after the server RTCP port |
| `Transport.UnicastTcpReplyCarriesChannels` | src/liveMedia/RTSPClientSession.go:150-161 | a unicast TCP SETUP reply contains `;interleaved=<rtp>-<counter+2>\r\n`, where rtp is the counter when the client sent 0xFF, so the line ends right after the RTCP channel id |
| `Transport.TransportText` | src/liveMedia/RTSPClientSession.go:107-166 | the `Transport:` values of the formats at lines 107, 140, 154 and 166, and the corrected form of line 123. It has no contract of its own; its properties are stated by `UnicastUdpReplyCarriesPorts`, `UnicastTcpReplyCarriesChannels` and `MulticastRawUdpFormatMatches` |
| `Transport.SetupResponseText` | src/liveMedia/RTSPClientSession.go:104-108 | the status line, `CSeq:`, the date line, the `Transport:` line and the `Session:` trailer shared by all five SETUP formats. It has no contract of its own; `SetupResponseEndsWithSession` states the trailer, and the two `...ReplyCarries...` lemmas state what the `Transport:` line carries |
| `Transport.MulticastRawUdpArgsAsWritten` | src/liveMedia/RTSPClientSession.go:126-130 | the values lines 126-130 pass to the `Transport:` verbs, in the order written. It has no contract of its own; `MulticastRawUdpAsWrittenMisbinds` states how they bind |
| `Transport.MulticastRawUdpAsWrittenMisbinds` | src/liveMedia/RTSPClientSession.go:120-131 | as written, the arguments are not well typed against the verbs: the mode verb gets the destination, `destination=` gets the source, `source=` gets an int, `port=` gets the RTCP port |
| `Transport.MulticastRawUdpFormatMatches` | src/liveMedia/RTSPClientSession.go:120-131 | with the mode string first and no RTCP port, the format is well typed and prints exactly the modelled `<mode>;multicast;destination=D;source=S;port=P;ttl=T` |
| `Play.ChoosePlayHeaders` | src/liveMedia/RTSPClientSession.go:238-273 | `Scale:` iff a scale header was seen, echoing it unchanged. Clock form iff a range header was seen, open-ended iff no end time. Otherwise `npt=start-` iff end == 0 and scale >= 0, else `npt=start-end` |
| `ClientSession.ParseCommand` | src/liveMedia/RTSPClientSession.go:221-232 | only the five command names are handled, each by its own name; every other name falls through |
| `ClientSession.CommandNameRoundTrip` | src/liveMedia/RTSPClientSession.go:221-232 | each handled command is selected by exactly one name |
| `ClientSession.BindMedia` | src/liveMedia/RTSPClientSession.go:40-55 | failed lookup: NotFound iff unbound, BadRequest iff bound. Found: binds an unbound session, is accepted again by the same binding, is BadRequest under a different one |
| `ClientSession.Session.constructor` | src/liveMedia/RTSPClientSession.go:27-34 | a new session has zero fields, not multicast, counter 0, no binding or stream state, and the liveness timer started once |
| `ClientSession.Session.NoteLiveness` | src/liveMedia/RTSPClientSession.go:333-341 | the first call starts the timer; every later call resets it; the flag stays true |
| `ClientSession.Session.HandleCommandSetup` | src/liveMedia/RTSPClientSession.go:36-176 | a refused binding writes its error and changes nothing else. The binding never changes once set. The stream state is created once, from `subSessions[0]`, with `numStreamStates` set to the list length (an empty list panics). The stored token becomes the stream layer's. The stream layer is asked with the resolved channel ids. The chosen reply is written (none for an unrecognised mode). The counter and the multicast flag are untouched |
| `ClientSession.Session.HandleCommandPlay` | src/liveMedia/RTSPClientSession.go:235-277 | panics iff no SETUP completed. Otherwise it starts the stream with the session id and the stored token, changes nothing else, and answers with the chosen Scale/Range headers |
| `ClientSession.Session.HandleCommandPause` | src/liveMedia/RTSPClientSession.go:307-315 | panics iff no SETUP completed; otherwise pauses the stream with the stored token and answers 200 OK with the session |
| `ClientSession.Session.HandleCommandTearDown` | src/liveMedia/RTSPClientSession.go:325-331 | panics iff no SETUP completed; otherwise deletes the stream with the stored token, writes no reply and keeps the stream state |
| `ClientSession.Session.HandleCommandGetParameter` | src/liveMedia/RTSPClientSession.go:317-319 | answers 200 OK with the session and changes no session state |
| `ClientSession.Session.HandleCommandSetParameter` | src/liveMedia/RTSPClientSession.go:321-323 | answers 200 OK with the session and changes no session state |
| `ClientSession.Session.HandleCommandWithinSession` | src/liveMedia/RTSPClientSession.go:179-233 | renews liveness before dispatch. Unknown names have no other effect. Each command has its handler's effect. Binding, stream state, counter and multicast flag never change |
| `ClientSession.PlayPausePlayKeepsToken` | src/liveMedia/RTSPClientSession.go:277-308 | after SETUP, PLAY, PAUSE and PLAY, both starts and the pause carry the token SETUP received |

## Where the code differs from the expected behaviour

The model follows the code in each of these cases.

- `TCPStreamIdCount` is never written in this file. It stays 0, so no channel pair is
  allocated or advanced, and every server-chosen interleaved pair starts at channel 0.
- In TCP mode the RTCP channel id is counter + 2, not rtp + 1. The `Transport` header of
  RFC 2326 (section 12.39) describes `interleaved` as a channel range such as `0-1`, so an
  adjacent pair would be expected.
- `isMulticast` is never assigned, so it keeps Go's zero value `false`. The multicast branches
  are modelled but unreachable from a constructed session.
- PLAY, PAUSE and TEARDOWN before a completed SETUP dereference nil (modelled as `Panicked`).
  They do not answer with an RTSP error status.
- PLAY emits the `clock=` form whenever a `Range:` header was parsed, even when the client
  gave a relative range. A `Range: npt=5.000-` request would be expected to give
  `Range: npt=5.000-` back; it yields `Range: clock=<absStartTime>-`. RFC 2326 defines the
  two forms in section 3.6 (normal play time) and section 3.7 (absolute time).
- The scale is never clamped. The dispatcher passes a nil subsession, so `testScaleFactor`
  (line 243) is never called.
- TEARDOWN only calls `deleteStream`. It keeps the stream state and writes no reply, where a
  200 reply would be expected.
- The liveness timer only prints when it fires. It reclaims nothing, where an expired session
  would be expected to be torn down.

One case departs from the code. The multicast raw-UDP reply is modelled in its corrected
form; see Findings and `Transport.ChooseSetupReply` under Left out.

## Left out

- The liveness timer goroutine (lines 343-352) and `Timer.Reset` (line 339) involve
  concurrency and wall-clock time. Only the `isTimerRunning` flag and a start/reset event are
  kept. The race between line 339 and the goroutine's assignment of the timer is not modelled.
- `DateHeader()` depends on the wall clock. It is the string parameter `date` of
  `Transport.SetupResponseText`.
- `%f` and `%.3f` rendering of the scale and NPT values is floating-point formatting. The
  values are `real` and the PLAY reply is kept as the chosen header forms.
  `testScaleFactor` is never reached (see above).
- `ClientSession.Session.HandleCommandPlay`: the `RTP-Info:` line and the reply text
  (lines 279-304) are not modelled. Line 290 formats `rtpInfo` inside its own declaration
  instead of `rtpInfoFmt`. Line 275 redeclares `rangeHeader`, already declared at line 252 as
  the parsed range struct, with `:=`. Go rejects both. The model reads line 275 as a new
  string variable holding `buf`, the `Range:` line that line 302 prints.
- Lines 80-81 parse the Range and play-now headers in SETUP and never use the results (Go
  would also reject the unused locals). They are not modelled.
- Line 29 assigns the `uint32` parameter `sessionId` to the `uint` field `ourSessionId`
  without a conversion, which Go rejects too. The model reads it as the conversion
  `uint(sessionId)`, so the stored id stays a 32-bit value (`Format.Uint32`).
- The text of the NotFound, BadRequest, UnsupportedTransport and "200 OK with session"
  replies comes from the connection (`handleCommandNotFound`, `handleCommandBad`,
  `HandleCommandUnsupportedTransport`, `setRTSPResponseWithSessionId`), which is not part of
  this model. These replies are kept as `Reply` values.
- `LookupServerMediaSession`, `getStreamParameters`, `startStream`, `pauseStream`,
  `deleteStream`, `RtspURL`, `TrackId` and the `parse*Header` functions are external.
  - The results of the lookup, the header parsers and `getStreamParameters` are parameters.
  - Only `getStreamParameters`, `startStream`, `pauseStream`, `deleteStream` and the timer
    start and reset are recorded as events.
  - `RtspURL` and `TrackId` feed only the `RTP-Info:` line, so they are dropped with it.
- `StreamName()` on a nil media session (line 236) is assumed to dereference its receiver and
  panic.
- The commented-out aggregation and track matching (lines 184-219, 309-312, 327-330) is
  disabled code.
- Socket details (`net.Conn`, the TCP output socket) are I/O. Addresses are strings, and the
  socket passed to `getStreamParameters` is the flag `overTcp`.
- `Transport.ChooseSetupReply`: its `MulticastRawUdp` variant, and its `TransportText`
  rendering, are the corrected form of lines 120-131: the mode string first and no RTCP port
  (see Findings). The code as written binds its arguments differently. That binding is stated
  by `Transport.MulticastRawUdpAsWrittenMisbinds`, and `HandleCommandSetup` stores the
  corrected reply for this branch. The branch cannot be reached, because `isMulticast` is
  never set.
- `Transport.MulticastRawUdpAsWrittenMisbinds`: Go's output text for a mistyped verb is not
  modelled. The as-written code is stated at the level of which argument each verb receives.

## Findings

| source | as written | input that shows it | evidently intended | confidence | as-written member | corrected member |
|---|---|---|---|---|---|---|
| src/liveMedia/RTSPClientSession.go:120-131 | The multicast raw-UDP `Sprintf` passes destination, source, RTP port, RTCP port, TTL to the verbs mode, `destination=`, `source=`, `port=`, `ttl=` | any multicast RAW_UDP SETUP, e.g. destination `10.0.0.2`, source `10.0.0.1`, ports 6970/6971: the mode verb prints `10.0.0.2` and `port=` prints 6971 | `<mode>;multicast;destination=D;source=S;port=Rp;ttl=T`, with the mode string first and no RTCP port | not executed; follows from Go's positional binding of arguments to verbs | `Transport.MulticastRawUdpAsWrittenMisbinds` | `Transport.MulticastRawUdpFormatMatches` |
