/** The unit scenarios of the participant, as clients of the class: each method builds
    the packets a scenario uses, calls the participant and returns what it then reads.
    A packet field without an initialiser in the source starts with an arbitrary value,
    so it is a parameter here. */
module Scenarios {
  import opened CStrings
  import opened Packets
  import opened AppleMidi

  const TEST_INITIATOR_TOKEN: uint32 := 0x327b23c6
  const TEST_INITIATOR_SSRC: uint32 := 0xa556f4da
  const TEST_INITIATOR_NAME: string := "HOST"
  const TEST_SSRC: uint32 := 0xdbffa3a1
  const TEST_NAME: string := "NAME"

  lemma TestNamesFit()
    ensures NUL !in TEST_NAME && CString(TEST_NAME) == TEST_NAME && |TEST_NAME| < NAME_SIZE
    ensures NUL !in TEST_INITIATOR_NAME && |TEST_INITIATOR_NAME| < NAME_SIZE
  {
    assert forall i | 0 <= i < |TEST_NAME| :: TEST_NAME[i] != NUL;
    assert forall i | 0 <= i < |TEST_INITIATOR_NAME| :: TEST_INITIATOR_NAME[i] != NUL;
    CStringOfNulFree(TEST_NAME);
  }

  /** An invitation is answered with an acceptance carrying the default signature and
      protocol version, the invitation's token, and the participant's ssrc and name. */
  method GeneratesAcceptInvitationPacket(
    token: uint32, initiatorSsrc: uint32, initiatorName: seq<char>, initialCommand: uint16,
    responseCommand: uint16, responseToken: uint32, responseSsrc: uint32, responseName: seq<char>)
    returns (error: RtpMidiError, response: ExchangeValue)
    requires |initiatorName| == NAME_SIZE && |responseName| == NAME_SIZE
    ensures error == ErrorOk && error.Code() == 0
    ensures response.header.signature as uint32 == SIGNATURE
    ensures response.header.command as uint32 == ACCEPT_INV
    ensures response.protocolVersion == PROTOCOL_VERSION
    ensures response.initiatorToken == token
    ensures response.senderSsrc == TEST_SSRC
    ensures CString(response.name) == TEST_NAME
  {
    TestNamesFit();
    var rtpmidi := new RtpMidi(TEST_SSRC, TEST_NAME);
    var invitationPacket := new ExchangePacket(initialCommand, token, initiatorSsrc, initiatorName);
    var responsePacket := new ExchangePacket(responseCommand, responseToken, responseSsrc, responseName);
    invitationPacket.header.command := INV as uint16;
    error := rtpmidi.Accept(invitationPacket, responsePacket);
    response := responsePacket.Value();
  }

  /** A packet whose command is 0 is refused, and the response packet is not written. */
  method ErrorOnInvalidInvitationPacket(
    token: uint32, initiatorSsrc: uint32, initiatorName: seq<char>, initialCommand: uint16,
    responseCommand: uint16, responseToken: uint32, responseSsrc: uint32, responseName: seq<char>)
    returns (error: RtpMidiError, before: ExchangeValue, after: ExchangeValue)
    requires |initiatorName| == NAME_SIZE && |responseName| == NAME_SIZE
    ensures error == ErrorCommand && error.Code() == -9001
    ensures after == before
  {
    TestNamesFit();
    var rtpmidi := new RtpMidi(TEST_SSRC, TEST_NAME);
    var invitationPacket := new ExchangePacket(initialCommand, token, initiatorSsrc, initiatorName);
    var responsePacket := new ExchangePacket(responseCommand, responseToken, responseSsrc, responseName);
    invitationPacket.header.command := 0;
    before := responsePacket.Value();
    error := rtpmidi.Accept(invitationPacket, responsePacket);
    after := responsePacket.Value();
  }

  /** The handshake's invitation (token, ssrc, name "HOST") answered into a fresh packet
      matches the expected acceptance field by field. */
  method SendsCorrectResponseToInvitation(
    responseCommand: uint16, responseToken: uint32, responseSsrc: uint32, responseName: seq<char>)
    returns (error: RtpMidiError, response: ExchangeValue)
    requires |responseName| == NAME_SIZE
    ensures error == ErrorOk
    ensures SamePacket(response, ExpectedAcceptance(TEST_INITIATOR_TOKEN, TEST_SSRC, TEST_NAME))
  {
    TestNamesFit();
    var rtpmidi := new RtpMidi(TEST_SSRC, TEST_NAME);
    var invitation := new ExchangePacket(INV as uint16, TEST_INITIATOR_TOKEN, TEST_INITIATOR_SSRC,
                                         CharArrayInit(TEST_INITIATOR_NAME, NAME_SIZE));
    var responsePacket := new ExchangePacket(responseCommand, responseToken, responseSsrc, responseName);
    ghost var invitationValue := invitation.Value();
    ghost var initialResponse := responsePacket.Value();
    error := rtpmidi.Accept(invitation, responsePacket);
    response := responsePacket.Value();
    AcceptMatchesExpected(invitationValue, initialResponse, TEST_SSRC, TEST_NAME);
  }

  /** Step 0 stamped 1234, answered at 4321, gives step 1 with both stamps. */
  method GeneratesResponseToSynchronizationPacket(
    initiatorSsrc: uint32, initiatorPadding: seq<uint8>, initiatorStamps: seq<uint64>, initialCommand: uint16,
    responseCommand: uint16, responseSsrc: uint32, responseCount: uint8,
    responsePadding: seq<uint8>, responseStamps: seq<uint64>)
    returns (error: RtpMidiError, response: SyncValue)
    requires |initiatorPadding| == PADDING_SIZE && |initiatorStamps| == TIMESTAMP_COUNT
    requires |responsePadding| == PADDING_SIZE && |responseStamps| == TIMESTAMP_COUNT
    ensures error == ErrorOk
    ensures response.header.signature as uint32 == SIGNATURE
    ensures response.header.command as uint32 == CK
    ensures response.senderSsrc == TEST_SSRC
    ensures response.count as uint32 == SYNC1
    ensures |response.timestamp| == TIMESTAMP_COUNT
    ensures response.timestamp[SYNC0] == 1234 && response.timestamp[SYNC1] == 4321
    ensures response.timestamp[2] == responseStamps[2] && response.padding == responsePadding
  {
    TestNamesFit();
    var rtpmidi := new RtpMidi(TEST_SSRC, TEST_NAME);
    var initiatorPacket := new SynchronizationPacket(initialCommand, initiatorSsrc, 0, initiatorPadding, initiatorStamps);
    var responsePacket := new SynchronizationPacket(responseCommand, responseSsrc, responseCount,
                                                    responsePadding, responseStamps);
    initiatorPacket.header.command := CK as uint16;
    initiatorPacket.count := SYNC0 as uint8;
    initiatorPacket.timestamp[SYNC0] := 1234;
    error := rtpmidi.SynchronizationResponse(initiatorPacket, responsePacket, 4321);
    response := responsePacket.Value();
  }

  /** A packet at step 1 is refused, and the response packet is not written. */
  method ErrorOnInvalidSynchronizationPacket(
    initiatorSsrc: uint32, initiatorPadding: seq<uint8>, initiatorStamps: seq<uint64>, initialCommand: uint16,
    responseCommand: uint16, responseSsrc: uint32, responseCount: uint8,
    responsePadding: seq<uint8>, responseStamps: seq<uint64>)
    returns (error: RtpMidiError, before: SyncValue, after: SyncValue)
    requires |initiatorPadding| == PADDING_SIZE && |initiatorStamps| == TIMESTAMP_COUNT
    requires |responsePadding| == PADDING_SIZE && |responseStamps| == TIMESTAMP_COUNT
    ensures error == ErrorSync && error.Code() == -9002
    ensures after == before
  {
    TestNamesFit();
    var rtpmidi := new RtpMidi(TEST_SSRC, TEST_NAME);
    var initiatorPacket := new SynchronizationPacket(initialCommand, initiatorSsrc, SYNC1 as uint8,
                                                     initiatorPadding, initiatorStamps);
    var responsePacket := new SynchronizationPacket(responseCommand, responseSsrc, responseCount,
                                                    responsePadding, responseStamps);
    before := responsePacket.Value();
    error := rtpmidi.SynchronizationResponse(initiatorPacket, responsePacket, 0);
    after := responsePacket.Value();
  }

  /** A default header filled with sequence number 1 and timestamp 1234 keeps its RTP
      bytes 0x80 and 0x61 and carries the participant's ssrc. */
  method GeneratesMidiPacketHeader(initialSequence: uint16, initialTimestamp: uint32, initialSsrc: uint32)
    returns (header: MidiHeaderValue)
    ensures header.vpxcc as uint32 == VPXCC && header.mpayload as uint32 == MPAYLOAD
    ensures header.sequenceNumber == 1 && header.timestamp == 1234 && header.senderSsrc == TEST_SSRC
    ensures IsRtpMidiHeader(header)
  {
    TestNamesFit();
    var rtpmidi := new RtpMidi(TEST_SSRC, TEST_NAME);
    var packetHeader := new MidiPacketHeader(initialSequence, initialTimestamp, initialSsrc);
    rtpmidi.GenerateMidiHeader(packetHeader, 1, 1234);
    header := packetHeader.Value();
    DefaultsAreRtpMidiHeader(header);
  }
}
