/** The AppleMIDI session participant: it answers an invitation with an acceptance,
    answers step 0 of a clock synchronisation with step 1, and fills in the RTP
    header of outgoing MIDI packets, always in the name of its own session identity
    (ssrc and name).

    Each operation is given twice: as a function on packet values (AcceptReply,
    SyncReply, SetCommand, MidiHeaderFill), whose contracts and lemmas state what the
    operation promises, and as a method of the class RtpMidi that writes the caller's
    packet in place and is proved to leave it as the function says. */
module AppleMidi {
  import opened CStrings
  import opened Packets

  /** The session name a participant has unless it is given another. */
  const DEFAULT_NAME: string := "mbed-rtp-midi"

  /** The default name has no NUL and fits the 32-character name field. */
  lemma DefaultNameFits()
    ensures NUL !in DEFAULT_NAME && CString(DEFAULT_NAME) == DEFAULT_NAME && |DEFAULT_NAME| < NAME_SIZE
  {
    assert forall i | 0 <= i < |DEFAULT_NAME| :: DEFAULT_NAME[i] != NUL;
    CStringOfNulFree(DEFAULT_NAME);
  }

  /** set_command_header on a value: only the command changes. The command argument is
      a 32-bit enumerator stored in a 16-bit field, so it is reduced modulo 2^16. */
  function SetCommand(h: CommandHeaderValue, command: uint32): (r: CommandHeaderValue)
    ensures r.signature == h.signature
    ensures r.command as int == command as int % 0x1_0000
    ensures command as int < 0x1_0000 ==> r.command as uint32 == command
  {
    h.(command := (command as int % 0x1_0000) as uint16)
  }

  /** Every rtpmidi_command enumerator fits the 16-bit command field, so setting it
      stores it exactly. */
  lemma CommandsFitHeader(h: CommandHeaderValue, command: uint32)
    requires command in {INV, ACCEPT_INV, CK, SYNC0, SYNC1}
    ensures SetCommand(h, command).command as uint32 == command
  {
  }

  /** What an initiator may check of an acceptance: the acceptance command, its own
      token echoed, and the participant's ssrc and name. */
  predicate IsAcceptanceOf(p: ExchangeValue, initiatorToken: uint32, ssrc: uint32, name: string)
  {
    p.header.command as uint32 == ACCEPT_INV &&
    p.initiatorToken == initiatorToken &&
    p.senderSsrc == ssrc &&
    CString(p.name) == name
  }

  /** accept on values: the error and the response packet after the call, given the
      invitation, the response packet before the call and the participant's identity. */
  function AcceptReply(invitation: ExchangeValue, response: ExchangeValue, ssrc: uint32, name: string)
    : (r: (RtpMidiError, ExchangeValue))
    requires |response.name| == NAME_SIZE && |CString(name)| < NAME_SIZE
    ensures r.0 == ErrorOk || r.0 == ErrorCommand
    ensures r.0 == ErrorCommand <==> invitation.header.command as uint32 != INV
    ensures r.0 == ErrorCommand ==> r.1 == response
    ensures r.0 == ErrorOk ==> IsAcceptanceOf(r.1, invitation.initiatorToken, ssrc, CString(name))
    ensures r.1.header.signature == response.header.signature
    ensures r.1.protocolVersion == response.protocolVersion
    ensures |r.1.name| == NAME_SIZE
    ensures r.1.name[|CString(name)| + 1..] == response.name[|CString(name)| + 1..]
  {
    if invitation.header.command as uint32 != INV then
      (ErrorCommand, response)
    else
      (ErrorOk, response.(header := SetCommand(response.header, ACCEPT_INV),
                          initiatorToken := invitation.initiatorToken,
                          senderSsrc := ssrc,
                          name := StrCopied(response.name, name)))
  }

  /** The unit test's `Equals` matcher on two exchange packets: field by field, with
      the names compared as C strings. Equal packets match, and matching packets can
      differ only in the name bytes past the terminator. */
  predicate SamePacket(a: ExchangeValue, b: ExchangeValue): (same: bool)
    ensures a == b ==> same
    ensures same ==> a.header == b.header && a.(name := b.name) == b
    ensures same ==> CString(a.name) == CString(b.name)
  {
    a.header.signature == b.header.signature &&
    a.header.command == b.header.command &&
    a.protocolVersion == b.protocolVersion &&
    a.initiatorToken == b.initiatorToken &&
    a.senderSsrc == b.senderSsrc &&
    CString(a.name) == CString(b.name)
  }

  /** The acceptance the unit test expects, written as an aggregate initialiser: an
      acceptance of the token from the given identity, with the default signature and
      protocol version. */
  function ExpectedAcceptance(initiatorToken: uint32, ssrc: uint32, name: string): (r: ExchangeValue)
    requires NUL !in name && |name| < NAME_SIZE
    ensures IsAcceptanceOf(r, initiatorToken, ssrc, name)
    ensures r.header.signature as uint32 == SIGNATURE && r.protocolVersion == PROTOCOL_VERSION
    ensures |r.name| == NAME_SIZE
  {
    ExchangeValue(CommandHeaderValue(SIGNATURE as uint16, ACCEPT_INV as uint16),
                  PROTOCOL_VERSION, initiatorToken, ssrc, CharArrayInit(name, NAME_SIZE))
  }

  /** An invitation answered into a packet that still has its default signature and
      protocol version gives exactly the expected acceptance, and its name reads back as
      the participant's name. */
  lemma {:induction false} AcceptMatchesExpected(invitation: ExchangeValue, response: ExchangeValue, ssrc: uint32, name: string)
    requires invitation.header.command as uint32 == INV
    requires response.header.signature == SIGNATURE as uint16 && response.protocolVersion == PROTOCOL_VERSION
    requires |response.name| == NAME_SIZE && NUL !in name && |name| < NAME_SIZE
    ensures AcceptReply(invitation, response, ssrc, name).0 == ErrorOk
    ensures SamePacket(AcceptReply(invitation, response, ssrc, name).1, ExpectedAcceptance(invitation.initiatorToken, ssrc, name))
    ensures CString(AcceptReply(invitation, response, ssrc, name).1.name) == name
  {
    CStringOfNulFree(name);
  }

  /** An acceptance is not an invitation: fed back to accept it is refused. */
  lemma AcceptanceIsNoInvitation(invitation: ExchangeValue, response: ExchangeValue, other: ExchangeValue, ssrc: uint32, name: string)
    requires |response.name| == NAME_SIZE && |other.name| == NAME_SIZE && |CString(name)| < NAME_SIZE
    requires AcceptReply(invitation, response, ssrc, name).0 == ErrorOk
    ensures AcceptReply(AcceptReply(invitation, response, ssrc, name).1, other, ssrc, name) == (ErrorCommand, other)
  {
  }

  /** Answering the same invitation twice into the same packet leaves it as after the
      first answer: a repeated invitation gets the identical acceptance. */
  lemma AcceptTwice(invitation: ExchangeValue, response: ExchangeValue, ssrc: uint32, name: string)
    requires |response.name| == NAME_SIZE && |CString(name)| < NAME_SIZE
    ensures var first := AcceptReply(invitation, response, ssrc, name);
            AcceptReply(invitation, first.1, ssrc, name) == first
  {
    if invitation.header.command as uint32 == INV {
      StrCopiedTwice(response.name, name);
    }
  }

  /** A step-1 clock-synchronisation packet from `ssrc`, answering a step-0 packet that
      carried `initiatorTimestamp`, stamped with `responseTimestamp`. */
  predicate IsSyncReplyTo(p: SyncValue, initiatorTimestamp: uint64, ssrc: uint32, responseTimestamp: uint64)
  {
    |p.timestamp| == TIMESTAMP_COUNT &&
    p.header.command as uint32 == CK &&
    p.senderSsrc == ssrc &&
    p.count as uint32 == SYNC1 &&
    p.timestamp[SYNC0] == initiatorTimestamp &&
    p.timestamp[SYNC1] == responseTimestamp
  }

  /** synchronization_response on values. */
  function SyncReply(initiator: SyncValue, response: SyncValue, ssrc: uint32, responseTimestamp: uint64)
    : (r: (RtpMidiError, SyncValue))
    requires |initiator.timestamp| == TIMESTAMP_COUNT && |response.timestamp| == TIMESTAMP_COUNT
    ensures r.0 == ErrorOk || r.0 == ErrorSync
    ensures r.0 == ErrorSync <==> initiator.count as uint32 != SYNC0
    ensures r.0 == ErrorSync ==> r.1 == response
    ensures r.0 == ErrorOk ==> IsSyncReplyTo(r.1, initiator.timestamp[SYNC0], ssrc, responseTimestamp)
    ensures |r.1.timestamp| == TIMESTAMP_COUNT && r.1.timestamp[2] == response.timestamp[2]
    ensures r.1.header.signature == response.header.signature
    ensures r.1.padding == response.padding
  {
    if initiator.count as uint32 != SYNC0 then
      (ErrorSync, response)
    else
      (ErrorOk, response.(header := SetCommand(response.header, CK),
                          senderSsrc := ssrc,
                          count := SYNC1 as uint8,
                          timestamp := response.timestamp[SYNC0 := initiator.timestamp[SYNC0]]
                                                         [SYNC1 := responseTimestamp]))
  }

  /** The participant only answers step 0: its own step-1 reply, fed back, is refused. */
  lemma SyncReplyIsNoStep0(initiator: SyncValue, response: SyncValue, other: SyncValue, ssrc: uint32, t: uint64, t': uint64)
    requires |initiator.timestamp| == TIMESTAMP_COUNT && |response.timestamp| == TIMESTAMP_COUNT
    requires |other.timestamp| == TIMESTAMP_COUNT
    requires SyncReply(initiator, response, ssrc, t).0 == ErrorOk
    ensures SyncReply(SyncReply(initiator, response, ssrc, t).1, other, ssrc, t') == (ErrorSync, other)
  {
  }

  /** Answering the same step-0 packet twice with the same timestamp gives the same packet. */
  lemma SyncReplyTwice(initiator: SyncValue, response: SyncValue, ssrc: uint32, t: uint64)
    requires |initiator.timestamp| == TIMESTAMP_COUNT && |response.timestamp| == TIMESTAMP_COUNT
    ensures var first := SyncReply(initiator, response, ssrc, t);
            SyncReply(initiator, first.1, ssrc, t) == first
  {
    var first := SyncReply(initiator, response, ssrc, t);
    if initiator.count as uint32 == SYNC0 {
      var again := SyncReply(initiator, first.1, ssrc, t);
      assert again.1.timestamp == first.1.timestamp;
    }
  }

  /** generate_midi_header on values: exactly the three given fields are written. */
  function MidiHeaderFill(h: MidiHeaderValue, sequenceNumber: uint16, timestamp: uint32, ssrc: uint32)
    : (r: MidiHeaderValue)
    ensures r.sequenceNumber == sequenceNumber && r.timestamp == timestamp && r.senderSsrc == ssrc
    ensures r.vpxcc == h.vpxcc && r.mpayload == h.mpayload
  {
    h.(sequenceNumber := sequenceNumber, timestamp := timestamp, senderSsrc := ssrc)
  }

  /** Filling in a header keeps its first two bytes, so a header that starts as an RTP
      version-2 MIDI header stays one: the fields written are exactly the three given. */
  lemma MidiHeaderFillKeepsRtpHeader(h: MidiHeaderValue, sequenceNumber: uint16, timestamp: uint32, ssrc: uint32)
    ensures var r := MidiHeaderFill(h, sequenceNumber, timestamp, ssrc);
            r.sequenceNumber == sequenceNumber && r.timestamp == timestamp && r.senderSsrc == ssrc &&
            r.vpxcc == h.vpxcc && r.mpayload == h.mpayload &&
            (IsRtpMidiHeader(r) <==> IsRtpMidiHeader(h))
  {
  }

  /** class RTPMIDI: the participant's session identity and its packet builders. */
  class RtpMidi {
    // Private in the source and never reassigned: fixed at construction.
    const ssrc: uint32
    const name: string

    /** The name fits `char name[32]` with its terminator, so strcpy cannot overflow. */
    ghost predicate Valid()
    {
      |CString(name)| < NAME_SIZE
    }

    /** The default member initialisers: ssrc 0 and name "mbed-rtp-midi". */
    constructor Default()
      ensures Valid() && Ssrc() == 0 && Name() == DEFAULT_NAME
    {
      DefaultNameFits();
      ssrc := 0;
      name := DEFAULT_NAME;
    }

    /** A participant with the given identity. */
    constructor (ssrc: uint32, name: string)
      requires |CString(name)| < NAME_SIZE
      ensures Valid() && Ssrc() == ssrc && Name() == name
    {
      this.ssrc := ssrc;
      this.name := name;
    }

    /** ssrc(): the session's synchronisation source. */
    function Ssrc(): (r: uint32)
      ensures r == ssrc
    {
      ssrc
    }

    /** name(): the session name; for a valid participant it fits the name field. */
    function Name(): (r: string)
      ensures r == name
      ensures Valid() ==> |CString(r)| < NAME_SIZE
    {
      name
    }

    /** accept: answer an invitation. On any other command nothing is written. */
    method Accept(invitation: ExchangePacket, response: ExchangePacket) returns (error: RtpMidiError)
      requires Valid() && invitation.Valid() && response.Valid()
      modifies response, response.header, response.name
      ensures (error, response.Value()) == AcceptReply(old(invitation.Value()), old(response.Value()), Ssrc(), Name())
      ensures error == ErrorCommand <==> old(invitation.header.command) as uint32 != INV
      ensures error == ErrorCommand ==> unchanged(response, response.header, response.name)
      ensures error == ErrorOk ==>
        response.header.command as uint32 == ACCEPT_INV &&
        response.initiatorToken == old(invitation.initiatorToken) &&
        response.senderSsrc == Ssrc() &&
        CString(response.name[..]) == CString(Name())
      ensures response.header.signature == old(response.header.signature)
      ensures response.protocolVersion == old(response.protocolVersion)
    {
      if invitation.header.command as uint32 != INV {
        return ErrorCommand;
      }
      SetCommandHeader(response.header, ACCEPT_INV);
      response.initiatorToken := invitation.initiatorToken;
      response.senderSsrc := ssrc;
      StrCpy(response.name, name);
      return ErrorOk;
    }

    /** synchronization_response: answer step 0 of a clock synchronisation with step 1,
      stamped with `responseTimestamp`. On any other step nothing is written. */
    method SynchronizationResponse(initiator: SynchronizationPacket, response: SynchronizationPacket,
                                   responseTimestamp: uint64) returns (error: RtpMidiError)
      requires initiator.Valid() && response.Valid()
      modifies response, response.header, response.timestamp
      ensures (error, response.Value()) == SyncReply(old(initiator.Value()), old(response.Value()), Ssrc(), responseTimestamp)
      ensures error == ErrorSync <==> old(initiator.count) as uint32 != SYNC0
      ensures error == ErrorSync ==> unchanged(response, response.header, response.timestamp)
      ensures error == ErrorOk ==>
        response.header.command as uint32 == CK &&
        response.senderSsrc == Ssrc() &&
        response.count as uint32 == SYNC1 &&
        response.timestamp[SYNC0] == old(initiator.timestamp[SYNC0]) &&
        response.timestamp[SYNC1] == responseTimestamp
      ensures response.timestamp[2] == old(response.timestamp[2])
      ensures response.header.signature == old(response.header.signature)
    {
      if initiator.count as uint32 != SYNC0 {
        return ErrorSync;
      }
      SetCommandHeader(response.header, CK);
      response.senderSsrc := ssrc;
      response.count := SYNC1 as uint8;
      response.timestamp[SYNC0] := initiator.timestamp[SYNC0];
      response.timestamp[SYNC1] := responseTimestamp;
      return ErrorOk;
    }

    /** set_command_header: write the command and nothing else. */
    method SetCommandHeader(header: CommandHeader, command: uint32)
      modifies header
      ensures header.Value() == SetCommand(old(header.Value()), command)
      ensures header.signature == old(header.signature)
    {
      header.command := (command as int % 0x1_0000) as uint16;
    }

    /** generate_midi_header: write the sequence number, the timestamp and the local ssrc. */
    method GenerateMidiHeader(header: MidiPacketHeader, sequenceNumber: uint16, timestamp: uint32)
      modifies header
      ensures header.Value() == MidiHeaderFill(old(header.Value()), sequenceNumber, timestamp, Ssrc())
      ensures header.sequenceNumber == sequenceNumber && header.timestamp == timestamp && header.senderSsrc == Ssrc()
      ensures header.vpxcc == old(header.vpxcc) && header.mpayload == old(header.mpayload)
    {
      header.sequenceNumber := sequenceNumber;
      header.timestamp := timestamp;
      header.senderSsrc := ssrc;
    }
  }
}
