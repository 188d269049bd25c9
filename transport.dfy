/**
 * Transport negotiation of an RTSP SETUP (RTSP/1.0, section 12.39 of RFC 2326): the
 * interleaved channel-id rule for RTP over the RTSP connection, the choice of the
 * `Transport:` form for each (multicast, streaming mode) pair, and the text of a successful
 * SETUP reply (RTSPClientSession.go:64-176).
 */
module Transport {

  import opened Wrappers
  import opened Format

  /** The streaming modes the Transport header parser distinguishes; any other value falls
      through both switches of the SETUP handler. */
  datatype StreamingMode = RtpUdp | RtpTcp | RawUdp | OtherMode

  /** The parsed `Transport:` request header (the fields the SETUP handler reads). */
  datatype TransportHeader = TransportHeader(
    mode: StreamingMode,
    modeStr: string,
    rtpChannelId: int,
    rtcpChannelId: int,
    clientRtpPort: int,
    clientRtcpPort: int,
    destinationTtl: int)

  datatype ChannelIds = ChannelIds(rtp: int, rtcp: int)

  /** The channel id the parser reports when the client named no `interleaved=` pair. */
  const NoChannel: int := 0xFF

  /**
   * The interleaved channel ids handed to the stream layer, computed in the two steps of
   * lines 72-78.  The RTCP id of 'count + 1' chosen in the first step is always overwritten
   * by the second, so in TCP mode RTCP is two above the session's counter whatever was
   * requested, and the pair is not adjacent when the ids were chosen by the server.
   */
  function ResolveChannels(mode: StreamingMode, requested: ChannelIds, tcpStreamIdCount: int): (r: ChannelIds)
    ensures mode == RtpTcp && requested.rtp == NoChannel ==> r.rtp == tcpStreamIdCount
    ensures mode == RtpTcp && requested.rtp != NoChannel ==> r.rtp == requested.rtp
    ensures mode == RtpTcp ==> r.rtcp == tcpStreamIdCount + 2
    ensures mode == RtpTcp && requested.rtp == NoChannel ==> r.rtcp == r.rtp + 2
    ensures mode != RtpTcp ==> r == requested
  {
    var defaulted :=
      if mode == RtpTcp && requested.rtp == NoChannel
      then ChannelIds(tcpStreamIdCount, tcpStreamIdCount + 1)
      else requested;
    if mode == RtpTcp then defaulted.(rtcp := tcpStreamIdCount + 2) else defaulted
  }

  /** The negotiated transport a successful SETUP reports, one variant per `Transport:` form. */
  datatype TransportSpec =
    | MulticastUdp(destination: string, source: string, serverRtpPort: int, serverRtcpPort: int, ttl: int)
    | MulticastRawUdp(modeStr: string, destination: string, source: string, serverRtpPort: int, ttl: int)
    | UnicastUdp(destination: string, source: string, clientRtpPort: int, clientRtcpPort: int,
                 serverRtpPort: int, serverRtcpPort: int)
    | UnicastTcp(destination: string, source: string, rtpChannelId: int, rtcpChannelId: int)
    | UnicastRawUdp(modeStr: string, destination: string, source: string, clientRtpPort: int, serverRtpPort: int)
  {
    predicate IsMulticast() { MulticastUdp? || MulticastRawUdp? }
  }

  /** What SETUP answers once the stream layer has been asked for its parameters. */
  datatype SetupReply = TransportOk(spec: TransportSpec) | UnsupportedTransport

  /**
   * The reply chosen by the two switches of lines 101-176.  `None` is the absent `default`
   * case: an unrecognised mode writes no reply.  Multicast over TCP is refused and never
   * yields a `Transport:` line; every other recognised pair yields the form of its own row,
   * carrying the client's ports from the request, the server's from the stream layer and
   * the resolved channel ids.
   */
  function ChooseSetupReply(isMulticast: bool, th: TransportHeader, channels: ChannelIds,
                            source: string, destination: string,
                            serverRtpPort: int, serverRtcpPort: int): (r: Option<SetupReply>)
    ensures r.None? <==> th.mode == OtherMode
    ensures r == Some(UnsupportedTransport) <==> isMulticast && th.mode == RtpTcp
    ensures r.Some? && r.value.TransportOk? ==>
              r.value.spec.IsMulticast() == isMulticast
              && r.value.spec.destination == destination && r.value.spec.source == source
    ensures r.Some? && r.value.TransportOk? ==>
              (r.value.spec.UnicastUdp? || r.value.spec.MulticastUdp? <==> th.mode == RtpUdp)
              && (r.value.spec.UnicastTcp? <==> th.mode == RtpTcp)
              && (r.value.spec.UnicastRawUdp? || r.value.spec.MulticastRawUdp? <==> th.mode == RawUdp)
    ensures r.Some? && r.value.TransportOk? && !r.value.spec.UnicastTcp? ==>
              r.value.spec.serverRtpPort == serverRtpPort
    ensures r.Some? && r.value.TransportOk? && (r.value.spec.UnicastUdp? || r.value.spec.MulticastUdp?) ==>
              r.value.spec.serverRtcpPort == serverRtcpPort
    ensures r.Some? && r.value.TransportOk? && (r.value.spec.UnicastUdp? || r.value.spec.UnicastRawUdp?) ==>
              r.value.spec.clientRtpPort == th.clientRtpPort
    ensures r.Some? && r.value.TransportOk? && r.value.spec.UnicastUdp? ==>
              r.value.spec.clientRtcpPort == th.clientRtcpPort
    ensures r.Some? && r.value.TransportOk? && r.value.spec.UnicastTcp? ==>
              r.value.spec.rtpChannelId == channels.rtp && r.value.spec.rtcpChannelId == channels.rtcp
    ensures r.Some? && r.value.TransportOk? && (r.value.spec.MulticastUdp? || r.value.spec.MulticastRawUdp?) ==>
              r.value.spec.ttl == th.destinationTtl
    ensures r.Some? && r.value.TransportOk? && (r.value.spec.MulticastRawUdp? || r.value.spec.UnicastRawUdp?) ==>
              r.value.spec.modeStr == th.modeStr
  {
    if isMulticast then
      match th.mode
      case RtpUdp =>
        Some(TransportOk(MulticastUdp(destination, source, serverRtpPort, serverRtcpPort, th.destinationTtl)))
      case RtpTcp => Some(UnsupportedTransport)
      case RawUdp =>
        Some(TransportOk(MulticastRawUdp(th.modeStr, destination, source, serverRtpPort, th.destinationTtl)))
      case OtherMode => None
    else
      match th.mode
      case RtpUdp =>
        Some(TransportOk(UnicastUdp(destination, source, th.clientRtpPort, th.clientRtcpPort,
                                    serverRtpPort, serverRtcpPort)))
      case RtpTcp => Some(TransportOk(UnicastTcp(destination, source, channels.rtp, channels.rtcp)))
      case RawUdp =>
        Some(TransportOk(UnicastRawUdp(th.modeStr, destination, source, th.clientRtpPort, serverRtpPort)))
      case OtherMode => None
  }

  // ---------------------------------------------------------------------------
  // Rendering
  // ---------------------------------------------------------------------------

  /** The value of the `Transport:` response header. */
  function TransportText(t: TransportSpec): string
  {
    match t
    case MulticastUdp(d, s, rtp, rtcp, ttl) =>
      "RTP/AVP;multicast;destination=" + d + ";source=" + s
      + ";port=" + Decimal(rtp) + "-" + Decimal(rtcp) + ";ttl=" + Decimal(ttl)
    case MulticastRawUdp(m, d, s, rtp, ttl) =>
      m + ";multicast;destination=" + d + ";source=" + s + ";port=" + Decimal(rtp) + ";ttl=" + Decimal(ttl)
    case UnicastUdp(d, s, crtp, crtcp, srtp, srtcp) =>
      "RTP/AVP;unicast;destination=" + d + ";source=" + s + ";" + PortPairs(crtp, crtcp, srtp, srtcp)
    case UnicastTcp(d, s, rtp, rtcp) =>
      "RTP/AVP/TCP;unicast;destination=" + d + ";source=" + s + ";" + Interleaved(rtp, rtcp)
    case UnicastRawUdp(m, d, s, crtp, srtp) =>
      m + ";unicast;destination=" + d + ";source=" + s
      + ";client_port=" + Decimal(crtp) + ";server_port=" + Decimal(srtp)
  }

  function PortPairs(clientRtp: int, clientRtcp: int, serverRtp: int, serverRtcp: int): string
  {
    "client_port=" + Decimal(clientRtp) + "-" + Decimal(clientRtcp)
    + ";server_port=" + Decimal(serverRtp) + "-" + Decimal(serverRtcp)
  }

  function Interleaved(rtp: int, rtcp: int): string
  {
    "interleaved=" + Decimal(rtp) + "-" + Decimal(rtcp)
  }

  function SessionTrailer(sessionId: Uint32): string
  {
    "Session: " + Hex8(sessionId) + "\r\n\r\n"
  }

  function TransportLine(t: TransportSpec): string
  {
    "Transport: " + TransportText(t) + "\r\n"
  }

  /** The status line, the `CSeq:` line and the `Date:` header line. */
  function ReplyHead(cseq: string, date: string): string
  {
    "RTSP/1.0 200 OK\r\n" + "CSeq: " + cseq + "\r\n" + date
  }

  /** The whole 200 reply to a SETUP, given the connection's CSeq and the `Date:` header line. */
  function SetupResponseText(t: TransportSpec, cseq: string, date: string, sessionId: Uint32): string
  {
    ReplyHead(cseq, date) + TransportLine(t) + SessionTrailer(sessionId)
  }

  /**
   * `r` ends with the session trailer, and the eight characters before its blank line are
   * upper-case hex digits that read back as `sessionId`.
   */
  predicate EndsWithSessionId(r: string, sessionId: Uint32)
  {
    EndsWith(r, SessionTrailer(sessionId))
    && |r| >= 12 && ParseHex(r[|r| - 12..|r| - 4]) == sessionId
    && forall i :: |r| - 12 <= i < |r| - 4 ==> IsUpperHexDigit(r[i])
  }

  /** Whatever precedes it, a trailer ends the text with its session id. */
  lemma TrailerDigits(prefix: string, sessionId: Uint32)
    ensures EndsWithSessionId(prefix + SessionTrailer(sessionId), sessionId)
  {
    var r := prefix + SessionTrailer(sessionId);
    assert |SessionTrailer(sessionId)| == 21;
    assert r[|r| - 21..] == SessionTrailer(sessionId);
    assert r[|r| - 12..|r| - 4] == SessionTrailer(sessionId)[9..17] == Hex8(sessionId);
    forall i | |r| - 12 <= i < |r| - 4 ensures IsUpperHexDigit(r[i]) {
      assert r[i] == Hex8(sessionId)[i - (|r| - 12)];
    }
    Hex8RoundTrip(sessionId);
  }

  /** Every successful SETUP reply ends with `Session: `, the id in exactly eight upper-case
      hex digits and the blank line, and those eight digits read back as the session id. */
  lemma SetupResponseEndsWithSession(t: TransportSpec, cseq: string, date: string, sessionId: Uint32)
    ensures EndsWithSessionId(SetupResponseText(t, cseq, date, sessionId), sessionId)
  {
    TrailerDigits(ReplyHead(cseq, date) + TransportLine(t), sessionId);
  }

  /** Whatever occurs in the `Transport:` header line, terminator included, occurs in the whole reply. */
  lemma InfixOfTransportLineInReply(x: string, t: TransportSpec, cseq: string, date: string, sessionId: Uint32)
    requires IsInfix(x, TransportLine(t))
    ensures IsInfix(x, SetupResponseText(t, cseq, date, sessionId))
  {
    var head := ReplyHead(cseq, date);
    InfixAfter(x, head, TransportLine(t));
    InfixBefore(x, head + TransportLine(t), SessionTrailer(sessionId));
  }

  /** Regrouping a header line whose value ends in `;` and a last field, so that the last
      field and the line terminator sit together. */
  lemma LastFieldOfLine(name: string, front: string, last: string, eol: string)
    ensures (name + ((front + ";") + last)) + eol == (name + front) + ((";" + last) + eol)
  {
  }

  /** The last field of a header line, with the `;` before it and the line terminator after it,
      occurs in the line. */
  lemma LastFieldInfix(front: string, last: string)
    ensures IsInfix((";" + last) + "\r\n", ("Transport: " + ((front + ";") + last)) + "\r\n")
  {
    var x := (";" + last) + "\r\n";
    LastFieldOfLine("Transport: ", front, last, "\r\n");
    InfixOfSelf(x);
    InfixAfter(x, "Transport: " + front, x);
  }

  /**
   * A unicast UDP SETUP answers with the client's own ports from its request and the server
   * ports the stream layer chose, as the last field `;client_port=a-b;server_port=c-d` of the
   * `Transport:` line, so the line terminator follows the server RTCP port directly.
   */
  lemma UnicastUdpReplyCarriesPorts(th: TransportHeader, channels: ChannelIds, source: string, destination: string,
                                    serverRtpPort: int, serverRtcpPort: int, cseq: string, date: string,
                                    sessionId: Uint32)
    requires th.mode == RtpUdp
    ensures var r := ChooseSetupReply(false, th, channels, source, destination, serverRtpPort, serverRtcpPort);
            r.Some? && r.value.TransportOk?
            && IsInfix(";" + PortPairs(th.clientRtpPort, th.clientRtcpPort, serverRtpPort, serverRtcpPort) + "\r\n",
                       SetupResponseText(r.value.spec, cseq, date, sessionId))
  {
    var spec := UnicastUdp(destination, source, th.clientRtpPort, th.clientRtcpPort, serverRtpPort, serverRtcpPort);
    var pairs := PortPairs(th.clientRtpPort, th.clientRtcpPort, serverRtpPort, serverRtcpPort);
    LastFieldInfix("RTP/AVP;unicast;destination=" + destination + ";source=" + source, pairs);
    InfixOfTransportLineInReply(";" + pairs + "\r\n", spec, cseq, date, sessionId);
  }

  /**
   * A unicast TCP SETUP answers with `interleaved=` and the resolved channel ids as the last
   * field of the `Transport:` line.  When the client named no channel the pair printed is
   * `count-(count+2)`, not an adjacent pair.
   */
  lemma UnicastTcpReplyCarriesChannels(th: TransportHeader, tcpStreamIdCount: int, source: string,
                                       destination: string, serverRtpPort: int, serverRtcpPort: int,
                                       cseq: string, date: string, sessionId: Uint32)
    requires th.mode == RtpTcp
    ensures var channels := ResolveChannels(th.mode, ChannelIds(th.rtpChannelId, th.rtcpChannelId), tcpStreamIdCount);
            var r := ChooseSetupReply(false, th, channels, source, destination, serverRtpPort, serverRtcpPort);
            var rtp := if th.rtpChannelId == NoChannel then tcpStreamIdCount else th.rtpChannelId;
            r.Some? && r.value.TransportOk?
            && IsInfix(";" + Interleaved(rtp, tcpStreamIdCount + 2) + "\r\n",
                       SetupResponseText(r.value.spec, cseq, date, sessionId))
  {
    var rtp := if th.rtpChannelId == NoChannel then tcpStreamIdCount else th.rtpChannelId;
    var spec := UnicastTcp(destination, source, rtp, tcpStreamIdCount + 2);
    var ids := Interleaved(rtp, tcpStreamIdCount + 2);
    LastFieldInfix("RTP/AVP/TCP;unicast;destination=" + destination + ";source=" + source, ids);
    InfixOfTransportLineInReply(";" + ids + "\r\n", spec, cseq, date, sessionId);
  }

  // ---------------------------------------------------------------------------
  // The multicast raw-UDP format at lines 120-131
  // ---------------------------------------------------------------------------

  /** A Go format verb and a value handed to it, as far as this format uses them. */
  datatype Verb = StringVerb | IntVerb
  datatype FormatArg = StringArg(s: string) | IntArg(n: int)

  /** The verbs of the `Transport:` part of the multicast raw-UDP format, in order:
      the mode, `destination=`, `source=`, `port=`, `ttl=`. */
  const MulticastRawUdpVerbs: seq<Verb> := [StringVerb, StringVerb, StringVerb, IntVerb, IntVerb]

  /** The literal text around those verbs. */
  const MulticastRawUdpPieces: seq<string> := ["", ";multicast;destination=", ";source=", ";port=", ";ttl=", ""]

  predicate Fits(v: Verb, a: FormatArg)
  {
    (v == StringVerb && a.StringArg?) || (v == IntVerb && a.IntArg?)
  }

  /** Go binds arguments to verbs by position; a binding is sound when every kind matches. */
  predicate WellTyped(verbs: seq<Verb>, args: seq<FormatArg>)
  {
    |verbs| == |args| && forall i :: 0 <= i < |args| ==> Fits(verbs[i], args[i])
  }

  function Show(a: FormatArg): string
  {
    match a
    case StringArg(s) => s
    case IntArg(n) => Decimal(n)
  }

  /** The text of a format whose verbs are all well typed: pieces and shown arguments alternate. */
  function Fill(pieces: seq<string>, args: seq<FormatArg>): string
    requires |pieces| == |args| + 1
    decreases |args|
  {
    if args == [] then pieces[0]
    else Fill(pieces[..|pieces| - 1], args[..|args| - 1]) + Show(args[|args| - 1]) + pieces[|pieces| - 1]
  }

  /** The values lines 126-130 pass to the `Transport:` verbs, in the order written. */
  function MulticastRawUdpArgsAsWritten(destination: string, source: string, serverRtpPort: int,
                                        serverRtcpPort: int, ttl: int): seq<FormatArg>
  {
    [StringArg(destination), StringArg(source), IntArg(serverRtpPort), IntArg(serverRtcpPort), IntArg(ttl)]
  }

  /**
   * As written, the arguments are shifted by one against the verbs: the mode verb prints the
   * destination address, `destination=` prints the source address, the `source=` string verb
   * receives the RTP port (a kind mismatch), and `port=` prints the RTCP port.
   */
  lemma MulticastRawUdpAsWrittenMisbinds(destination: string, source: string, serverRtpPort: int,
                                         serverRtcpPort: int, ttl: int)
    ensures var args := MulticastRawUdpArgsAsWritten(destination, source, serverRtpPort, serverRtcpPort, ttl);
            !WellTyped(MulticastRawUdpVerbs, args)
            && args[0] == StringArg(destination)
            && args[1] == StringArg(source)
            && MulticastRawUdpVerbs[2] == StringVerb && args[2] == IntArg(serverRtpPort)
            && args[3] == IntArg(serverRtcpPort)
  {
    var args := MulticastRawUdpArgsAsWritten(destination, source, serverRtpPort, serverRtcpPort, ttl);
    assert !Fits(MulticastRawUdpVerbs[2], args[2]);
  }

  /** The arguments the format evidently wants: the mode string first, the RTCP port left out. */
  function MulticastRawUdpArgs(t: TransportSpec): seq<FormatArg>
    requires t.MulticastRawUdp?
  {
    [StringArg(t.modeStr), StringArg(t.destination), StringArg(t.source), IntArg(t.serverRtpPort), IntArg(t.ttl)]
  }

  /** With those arguments the format is well typed and prints exactly the transport this
      model renders, `<mode>;multicast;destination=D;source=S;port=P;ttl=T`. */
  lemma MulticastRawUdpFormatMatches(t: TransportSpec)
    requires t.MulticastRawUdp?
    ensures WellTyped(MulticastRawUdpVerbs, MulticastRawUdpArgs(t))
    ensures Fill(MulticastRawUdpPieces, MulticastRawUdpArgs(t)) == TransportText(t)
  {
    var args := MulticastRawUdpArgs(t);
    var pieces := MulticastRawUdpPieces;
    assert Fill(pieces[..1], args[..0]) == "";
    assert Fill(pieces[..2], args[..1]) == t.modeStr + ";multicast;destination=" by {
      assert pieces[..2][..1] == pieces[..1] && args[..1][..0] == args[..0];
    }
    assert Fill(pieces[..3], args[..2]) == t.modeStr + ";multicast;destination=" + t.destination + ";source=" by {
      assert pieces[..3][..2] == pieces[..2] && args[..2][..1] == args[..1];
    }
    assert Fill(pieces[..4], args[..3]) == t.modeStr + ";multicast;destination=" + t.destination + ";source="
                                           + t.source + ";port=" by {
      assert pieces[..4][..3] == pieces[..3] && args[..3][..2] == args[..2];
    }
    assert Fill(pieces[..5], args[..4]) == t.modeStr + ";multicast;destination=" + t.destination + ";source="
                                           + t.source + ";port=" + Decimal(t.serverRtpPort) + ";ttl=" by {
      assert pieces[..5][..4] == pieces[..4] && args[..4][..3] == args[..3];
    }
    assert pieces[..5] == pieces[..|pieces| - 1] && args[..4] == args[..|args| - 1];
  }
}
