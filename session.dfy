/**
 * The per-client RTSP session (RTSPClientSession.go): binding to a server media session at
 * SETUP, the single stream state and its stream token, dispatch of the in-session commands,
 * and the liveness flag.  Calls into the media session registry and the stream layer are
 * not modelled as code: their results are parameters, and the calls this session makes are
 * recorded, with their arguments, in a ghost event log.
 */
module ClientSession {

  import opened Wrappers
  import opened Format
  import opened Transport
  import opened Play

  /** Identity of a server media session object (SETUP compares these by pointer). */
  type MediaId = nat
  /** Identity of a server media subsession object. */
  type SubsessionId = nat
  /** The opaque stream token the stream layer hands out at SETUP. */
  type Token = nat

  /** What `getStreamParameters` returns: the server's ports and the stream token. */
  datatype StreamParameters = StreamParameters(serverRtpPort: int, serverRtcpPort: int, token: Token)

  /** The session's single stream state; `None` components are Go's nil values. */
  datatype StreamState = StreamState(subsession: Option<SubsessionId>, token: Option<Token>)

  datatype Failure = NotFound | BadRequest

  /** The outcome of looking up the SETUP's stream name against the session's binding. */
  datatype Binding = Rejected(failure: Failure) | Bound(media: MediaId)

  /** The reply last written to the connection's response buffer. */
  datatype Reply =
    | Failed(failure: Failure)
    | SetupAnswer(setup: SetupReply)
    | OkWithSession
    | PlayOk(headers: PlayHeaders)

  /** A Go run-time panic that ends the handler at the point where it happens. */
  datatype Panic = NilDereference | IndexOutOfRange
  datatype Outcome = Completed | Panicked(cause: Panic)

  /** Calls this session makes into code outside this file. */
  datatype Event =
    | TimerStarted
    | TimerReset
    | GetStreamParameters(subsession: SubsessionId, overTcp: bool, destination: string,
                          clientRtpPort: int, clientRtcpPort: int, rtpChannelId: int, rtcpChannelId: int)
    | StartStream(subsession: SubsessionId, sessionId: Uint32, token: Option<Token>)
    | PauseStream(subsession: SubsessionId, token: Option<Token>)
    | DeleteStream(subsession: SubsessionId, token: Option<Token>)

  datatype Command = Teardown | Play | Pause | GetParameter | SetParameter | Unhandled

  function CommandName(c: Command): string
  {
    match c
    case Teardown => "TEARDOWN"
    case Play => "PLAY"
    case Pause => "PAUSE"
    case GetParameter => "GET_PARAMETER"
    case SetParameter => "SET_PARAMETER"
    case Unhandled => ""
  }

  /** The switch of lines 221-232: exactly the five command names are handled, each by its
      own handler; every other name falls through. */
  function ParseCommand(name: string): (c: Command)
    ensures c != Unhandled ==> CommandName(c) == name
    ensures c == Unhandled <==> name !in {"TEARDOWN", "PLAY", "PAUSE", "GET_PARAMETER", "SET_PARAMETER"}
  {
    if name == "TEARDOWN" then Teardown
    else if name == "PLAY" then Play
    else if name == "PAUSE" then Pause
    else if name == "GET_PARAMETER" then GetParameter
    else if name == "SET_PARAMETER" then SetParameter
    else Unhandled
  }

  /** Each handled command is reached from its own name and from no other. */
  lemma CommandNameRoundTrip(c: Command)
    requires c != Unhandled
    ensures ParseCommand(CommandName(c)) == c
    ensures forall name :: ParseCommand(name) == c ==> name == CommandName(c)
  {
  }

  /**
   * Lines 40-55.  A failed lookup is `NotFound` while the session is unbound and `BadRequest`
   * once it is bound; a found media session becomes the binding of an unbound session, is
   * accepted again by the session already bound to it, and is refused with `BadRequest` by a
   * session bound to another one.
   */
  function BindMedia(bound: Option<MediaId>, found: Option<MediaId>): (b: Binding)
    ensures b == Rejected(NotFound) <==> found.None? && bound.None?
    ensures b == Rejected(BadRequest) <==> bound.Some? && found != bound
    ensures b.Bound? <==> found.Some? && (bound.None? || bound == found)
    ensures b.Bound? ==> Some(b.media) == found
  {
    if found.None? then
      if bound.None? then Rejected(NotFound) else Rejected(BadRequest)
    else if bound.None? then Bound(found.value)
    else if found != bound then Rejected(BadRequest)
    else Bound(found.value)
  }

  class Session {
    const sessionId: Uint32
    var isMulticast: bool
    var isTimerRunning: bool
    var numStreamStates: int
    var tcpStreamIdCount: int
    var streamState: Option<StreamState>
    var serverMediaSession: Option<MediaId>
    var response: Option<Reply>
    ghost var events: seq<Event>

    /**
     * The liveness timer was started once, first, and never again; a stream state exists
     * only in a bound session; a stream state with a subsession carries a token.
     */
    ghost predicate Valid()
      reads this
    {
      isTimerRunning
      && |events| > 0 && events[0] == TimerStarted
      && (forall i :: 0 < i < |events| ==> events[i] != TimerStarted)
      && (serverMediaSession.None? ==> streamState.None?)
      && (HasStream() ==> streamState.value.token.Some? && numStreamStates > 0)
    }

    /** A SETUP completed: the stream state exists and names a subsession. */
    predicate HasStream()
      reads this
    {
      streamState.Some? && streamState.value.subsession.Some?
    }

    /** `NewRTSPClientSession`: every field at its zero value, then `noteLiveness`. */
    constructor (sessionId: Uint32)
      ensures Valid()
      ensures this.sessionId == sessionId
      ensures !isMulticast && numStreamStates == 0 && tcpStreamIdCount == 0
      ensures streamState.None? && serverMediaSession.None? && response.None?
      ensures events == [TimerStarted]
    {
      this.sessionId := sessionId;
      isMulticast := false;
      isTimerRunning := false;
      numStreamStates := 0;
      tcpStreamIdCount := 0;
      streamState := None;
      serverMediaSession := None;
      response := None;
      events := [];
      new;
      NoteLiveness();
    }

    /** `noteLiveness`: starts the timer task on the first call, resets it on every later one. */
    method NoteLiveness()
      modifies this`isTimerRunning, this`events
      ensures isTimerRunning
      ensures events == old(events) + [if old(isTimerRunning) then TimerReset else TimerStarted]
      ensures old(Valid()) ==> Valid()
    {
      if !isTimerRunning {
        events := events + [TimerStarted];
        isTimerRunning := true;
      } else {
        events := events + [TimerReset];
      }
    }

    /**
     * `HandleCommandSetup`.  `found` is what the registry returns for the stream name,
     * `subSessions` the subsessions of that media session, `th` the parsed Transport header,
     * `localAddr`/`remoteAddr` the connection's addresses and `params` what the stream layer
     * returns from `getStreamParameters`.
     */
    method HandleCommandSetup(found: Option<MediaId>, subSessions: seq<SubsessionId>, th: TransportHeader,
                              localAddr: string, remoteAddr: string, params: StreamParameters)
      returns (outcome: Outcome)
      requires Valid()
      modifies this`serverMediaSession, this`streamState, this`numStreamStates, this`response, this`events
      ensures Valid()
      // a refused binding writes its error and changes nothing else
      ensures var b := BindMedia(old(serverMediaSession), found);
              b.Rejected? ==>
                outcome == Completed && response == Some(Failed(b.failure))
                && serverMediaSession == old(serverMediaSession) && streamState == old(streamState)
                && numStreamStates == old(numStreamStates) && events == old(events)
      // an accepted binding is the looked-up media session, and a binding never changes
      ensures BindMedia(old(serverMediaSession), found).Bound? ==> serverMediaSession == found
      ensures old(serverMediaSession).Some? ==> serverMediaSession == old(serverMediaSession)
      // the stream state is created once, from the first subsession
      ensures BindMedia(old(serverMediaSession), found).Bound? && old(streamState).None? ==>
                numStreamStates == |subSessions|
                && (outcome == Panicked(IndexOutOfRange) <==> |subSessions| == 0)
      ensures BindMedia(old(serverMediaSession), found).Bound? && old(streamState).None? && |subSessions| > 0 ==>
                outcome == Completed && streamState.Some? && streamState.value.subsession == Some(subSessions[0])
      ensures outcome == Panicked(IndexOutOfRange) ==>
                streamState == Some(StreamState(None, None)) && events == old(events) && response == old(response)
      ensures old(streamState).Some? ==>
                numStreamStates == old(numStreamStates)
                && streamState.Some? && streamState.value.subsession == old(streamState).value.subsession
      // a stream state left without a subsession cannot be asked for parameters
      ensures outcome == Panicked(NilDereference) <==>
                BindMedia(old(serverMediaSession), found).Bound? && old(streamState).Some?
                && old(streamState).value.subsession.None?
      ensures outcome == Panicked(NilDereference) ==>
                streamState == old(streamState) && events == old(events) && response == old(response)
      // a completed SETUP asks the stream layer with the resolved channels, keeps its token,
      // and writes the reply the transport switch chooses (none for an unrecognised mode)
      ensures BindMedia(old(serverMediaSession), found).Bound? && outcome == Completed ==>
                var channels := ResolveChannels(th.mode, ChannelIds(th.rtpChannelId, th.rtcpChannelId), tcpStreamIdCount);
                var reply := ChooseSetupReply(isMulticast, th, channels, localAddr, remoteAddr,
                                              params.serverRtpPort, params.serverRtcpPort);
                HasStream() && streamState.value.token == Some(params.token)
                && events == old(events) + [GetStreamParameters(streamState.value.subsession.value, th.mode == RtpTcp,
                                                                remoteAddr, th.clientRtpPort, th.clientRtcpPort,
                                                                channels.rtp, channels.rtcp)]
                && response == (if reply.Some? then Some(SetupAnswer(reply.value)) else old(response))
    {
      var binding := BindMedia(serverMediaSession, found);
      if binding.Rejected? {
        response := Some(Failed(binding.failure));
        return Completed;
      }
      serverMediaSession := Some(binding.media);
      if streamState.None? {
        numStreamStates := |subSessions|;
        if |subSessions| == 0 {
          // the stream state is allocated before `subSessions[0]` is evaluated
          streamState := Some(StreamState(None, None));
          return Panicked(IndexOutOfRange);
        }
        streamState := Some(StreamState(Some(subSessions[0]), None));
      }
      var channels := ResolveChannels(th.mode, ChannelIds(th.rtpChannelId, th.rtcpChannelId), tcpStreamIdCount);
      var subsession := streamState.value.subsession;
      if subsession.None? {
        return Panicked(NilDereference);
      }
      events := events + [GetStreamParameters(subsession.value, th.mode == RtpTcp, remoteAddr,
                                              th.clientRtpPort, th.clientRtcpPort, channels.rtp, channels.rtcp)];
      streamState := Some(StreamState(subsession, Some(params.token)));
      var reply := ChooseSetupReply(isMulticast, th, channels, localAddr, remoteAddr,
                                    params.serverRtpPort, params.serverRtcpPort);
      if reply.Some? {
        response := Some(SetupAnswer(reply.value));
      }
      outcome := Completed;
    }

    /**
     * `HandleCommandPlay`, with the parsed `Scale:` and `Range:` headers as parameters.  Without
     * a completed SETUP the nil stream state (or nil media session) is dereferenced; otherwise
     * the stream is started with the stored token and the chosen headers are answered.
     */
    method HandleCommandPlay(scale: real, sawScale: bool, range: RangeHeader, sawRange: bool)
      returns (outcome: Outcome)
      requires Valid()
      modifies this`response, this`events
      ensures Valid()
      ensures outcome.Panicked? <==> !HasStream()
      ensures outcome.Panicked? ==>
                outcome.cause == NilDereference && response == old(response) && events == old(events)
      ensures HasStream() ==>
                response == Some(PlayOk(ChoosePlayHeaders(scale, sawScale, range, sawRange)))
                && events == old(events) + [StartStream(streamState.value.subsession.value, sessionId,
                                                        streamState.value.token)]
    {
      if serverMediaSession.None? {
        return Panicked(NilDereference);
      }
      var headers := ChoosePlayHeaders(scale, sawScale, range, sawRange);
      if !HasStream() {
        return Panicked(NilDereference);
      }
      events := events + [StartStream(streamState.value.subsession.value, sessionId, streamState.value.token)];
      response := Some(PlayOk(headers));
      outcome := Completed;
    }

    /** `HandleCommandPause`: pauses the stream with the stored token and answers 200 OK. */
    method HandleCommandPause() returns (outcome: Outcome)
      requires Valid()
      modifies this`response, this`events
      ensures Valid()
      ensures outcome.Panicked? <==> !HasStream()
      ensures outcome.Panicked? ==>
                outcome.cause == NilDereference && response == old(response) && events == old(events)
      ensures HasStream() ==>
                response == Some(OkWithSession)
                && events == old(events) + [PauseStream(streamState.value.subsession.value, streamState.value.token)]
    {
      if !HasStream() {
        return Panicked(NilDereference);
      }
      events := events + [PauseStream(streamState.value.subsession.value, streamState.value.token)];
      response := Some(OkWithSession);
      outcome := Completed;
    }

    /** `HandleCommandTearDown`: deletes the stream with the stored token; it writes no reply
        and keeps the stream state. */
    method HandleCommandTearDown() returns (outcome: Outcome)
      requires Valid()
      modifies this`events
      ensures Valid()
      ensures outcome.Panicked? <==> !HasStream()
      ensures outcome.Panicked? ==> outcome.cause == NilDereference && events == old(events)
      ensures HasStream() ==>
                events == old(events) + [DeleteStream(streamState.value.subsession.value, streamState.value.token)]
    {
      if !HasStream() {
        return Panicked(NilDereference);
      }
      events := events + [DeleteStream(streamState.value.subsession.value, streamState.value.token)];
      outcome := Completed;
    }

    /** `handleCommandGetParameter`: 200 OK with the session id, nothing else. */
    method HandleCommandGetParameter()
      modifies this`response
      ensures response == Some(OkWithSession)
    {
      response := Some(OkWithSession);
    }

    /** `handleCommandSetParameter`: 200 OK with the session id, nothing else. */
    method HandleCommandSetParameter()
      modifies this`response
      ensures response == Some(OkWithSession)
    {
      response := Some(OkWithSession);
    }

    /**
     * `HandleCommandWithinSession`: renews liveness, then runs the handler the command name
     * selects.  No in-session command touches the binding or the stream state, so the token
     * SETUP stored is the one every later PLAY, PAUSE and TEARDOWN hands on.
     */
    method HandleCommandWithinSession(cmdName: string, scale: real, sawScale: bool,
                                      range: RangeHeader, sawRange: bool)
      returns (outcome: Outcome)
      requires Valid()
      modifies this`isTimerRunning, this`events, this`response
      ensures Valid()
      ensures var c := ParseCommand(cmdName);
              var renewed := old(events) + [TimerReset];
              (c == Unhandled ==> outcome == Completed && response == old(response) && events == renewed)
              && (c == GetParameter || c == SetParameter ==>
                    outcome == Completed && response == Some(OkWithSession) && events == renewed)
              && (c == Play || c == Pause || c == Teardown ==>
                    (outcome.Panicked? <==> !HasStream())
                    && (outcome.Panicked? ==> response == old(response) && events == renewed))
              && (c == Play && HasStream() ==>
                    response == Some(PlayOk(ChoosePlayHeaders(scale, sawScale, range, sawRange)))
                    && events == renewed + [StartStream(streamState.value.subsession.value, sessionId,
                                                        streamState.value.token)])
              && (c == Pause && HasStream() ==>
                    response == Some(OkWithSession)
                    && events == renewed + [PauseStream(streamState.value.subsession.value, streamState.value.token)])
              && (c == Teardown && HasStream() ==>
                    response == old(response)
                    && events == renewed + [DeleteStream(streamState.value.subsession.value, streamState.value.token)])
    {
      NoteLiveness();
      match ParseCommand(cmdName)
      case Teardown => outcome := HandleCommandTearDown();
      case Play => outcome := HandleCommandPlay(scale, sawScale, range, sawRange);
      case Pause => outcome := HandleCommandPause();
      case GetParameter => HandleCommandGetParameter(); outcome := Completed;
      case SetParameter => HandleCommandSetParameter(); outcome := Completed;
      case Unhandled => outcome := Completed;
    }
  }

  /**
   * A SETUP, PLAY, PAUSE, PLAY sequence on a fresh session: the token the stream layer
   * returned at SETUP is the token both starts and the pause carry.
   */
  method PlayPausePlayKeepsToken(sessionId: Uint32, media: MediaId, sub: SubsessionId, th: TransportHeader,
                                 localAddr: string, remoteAddr: string, params: StreamParameters,
                                 range: RangeHeader)
    returns (s: Session)
    ensures s.HasStream() && s.streamState.value.token == Some(params.token)
    ensures var channels := ResolveChannels(th.mode, ChannelIds(th.rtpChannelId, th.rtcpChannelId), 0);
            s.events == [TimerStarted,
                         GetStreamParameters(sub, th.mode == RtpTcp, remoteAddr, th.clientRtpPort, th.clientRtcpPort,
                                             channels.rtp, channels.rtcp),
                         TimerReset, StartStream(sub, sessionId, Some(params.token)),
                         TimerReset, PauseStream(sub, Some(params.token)),
                         TimerReset, StartStream(sub, sessionId, Some(params.token))]
  {
    s := new Session(sessionId);
    var outcome := s.HandleCommandSetup(Some(media), [sub], th, localAddr, remoteAddr, params);
    outcome := s.HandleCommandWithinSession("PLAY", 1.0, false, range, false);
    outcome := s.HandleCommandWithinSession("PAUSE", 1.0, false, range, false);
    outcome := s.HandleCommandWithinSession("PLAY", 1.0, false, range, false);
  }
}
