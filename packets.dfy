/** The AppleMIDI definitions and the fixed-layout packet records that the
    participant fills in: the session exchange packet, the clock-synchronisation
    packet and the RTP header of a MIDI packet. Each record is a class, because the
    participant writes its fields through a reference; `Value()` gives the
    record's contents as a value. */
module Packets {
  import opened CStrings

  newtype uint8 = x: int | 0 <= x < 0x100
  newtype uint16 = x: int | 0 <= x < 0x1_0000
  newtype uint32 = x: int | 0 <= x < 0x1_0000_0000
  newtype uint64 = x: int | 0 <= x < 0x1_0000_0000_0000_0000
  newtype int32 = x: int | -0x8000_0000 <= x < 0x8000_0000

  // apple_midi_defs (an enum with underlying type uint32_t)
  const SIGNATURE: uint32 := 0xFFFF
  const PROTOCOL_VERSION: uint32 := 2
  const VPXCC: uint32 := 0x80
  const MPAYLOAD: uint32 := 0x61

  // rtpmidi_command (an enum with underlying type uint32_t)
  const INV: uint32 := 0x494E
  const ACCEPT_INV: uint32 := 0x4F4B
  const CK: uint32 := 0x434B
  const SYNC0: uint32 := 0
  const SYNC1: uint32 := 1

  /** rtpmidi_error: the result of every packet-building operation. */
  datatype RtpMidiError = ErrorOk | ErrorCommand | ErrorSync
  {
    /** The int32_t code of each enumerator. */
    function Code(): (c: int32)
      ensures c == 0 <==> this == ErrorOk
      ensures c < 0 <==> this != ErrorOk
    {
      match this
      case ErrorOk => 0
      case ErrorCommand => -9001
      case ErrorSync => -9002
    }
  }

  /** Array lengths of the records: char name[32], uint8_t padding[3], uint64_t timestamp[3]. */
  const NAME_SIZE: nat := 32
  const PADDING_SIZE: nat := 3
  const TIMESTAMP_COUNT: nat := 3

  datatype CommandHeaderValue = CommandHeaderValue(signature: uint16, command: uint16)

  datatype ExchangeValue = ExchangeValue(
    header: CommandHeaderValue,
    protocolVersion: uint32,
    initiatorToken: uint32,
    senderSsrc: uint32,
    name: seq<char>)

  datatype SyncValue = SyncValue(
    header: CommandHeaderValue,
    senderSsrc: uint32,
    count: uint8,
    padding: seq<uint8>,
    timestamp: seq<uint64>)

  datatype MidiHeaderValue = MidiHeaderValue(
    vpxcc: uint8,
    mpayload: uint8,
    sequenceNumber: uint16,
    timestamp: uint32,
    senderSsrc: uint32)

  /** command_header_t. `signature` starts at SIGNATURE; `command` has no initialiser,
      so its first value is the constructor's argument. */
  class CommandHeader {
    var signature: uint16
    var command: uint16

    constructor (command: uint16)
      ensures Value() == CommandHeaderValue(SIGNATURE as uint16, command)
    {
      signature := SIGNATURE as uint16;
      this.command := command;
    }

    function Value(): CommandHeaderValue
      reads this
    {
      CommandHeaderValue(signature, command)
    }
  }

  /** exchange_packet_t: the invitation / acceptance packet of the session handshake. */
  class ExchangePacket {
    const header: CommandHeader
    var protocolVersion: uint32
    var initiatorToken: uint32
    var senderSsrc: uint32
    const name: array<char>

    ghost predicate Valid()
      reads this
    {
      name.Length == NAME_SIZE
    }

    /** The default member initialisers fix the signature and the protocol version;
        the other fields start as the arguments say. */
    constructor (command: uint16, initiatorToken: uint32, senderSsrc: uint32, name: seq<char>)
      requires |name| == NAME_SIZE
      ensures Valid() && fresh(header) && fresh(this.name)
      ensures Value() == ExchangeValue(CommandHeaderValue(SIGNATURE as uint16, command),
                                       PROTOCOL_VERSION, initiatorToken, senderSsrc, name)
    {
      header := new CommandHeader(command);
      protocolVersion := PROTOCOL_VERSION;
      this.initiatorToken := initiatorToken;
      this.senderSsrc := senderSsrc;
      var chars := new char[NAME_SIZE](i requires 0 <= i < NAME_SIZE => name[i]);
      assert chars[..] == name;
      this.name := chars;
    }

    function Value(): ExchangeValue
      reads this, header, name
    {
      ExchangeValue(header.Value(), protocolVersion, initiatorToken, senderSsrc, name[..])
    }
  }

  /** synchronization_packet_t: one step of the three-way clock synchronisation. */
  class SynchronizationPacket {
    const header: CommandHeader
    var senderSsrc: uint32
    var count: uint8
    const padding: array<uint8>
    const timestamp: array<uint64>

    ghost predicate Valid()
      reads this
    {
      padding.Length == PADDING_SIZE && timestamp.Length == TIMESTAMP_COUNT
    }

    constructor (command: uint16, senderSsrc: uint32, count: uint8, padding: seq<uint8>, timestamp: seq<uint64>)
      requires |padding| == PADDING_SIZE && |timestamp| == TIMESTAMP_COUNT
      ensures Valid() && fresh(header) && fresh(this.padding) && fresh(this.timestamp)
      ensures Value() == SyncValue(CommandHeaderValue(SIGNATURE as uint16, command),
                                   senderSsrc, count, padding, timestamp)
    {
      header := new CommandHeader(command);
      this.senderSsrc := senderSsrc;
      this.count := count;
      var pad := new uint8[PADDING_SIZE](i requires 0 <= i < PADDING_SIZE => padding[i]);
      var stamps := new uint64[TIMESTAMP_COUNT](i requires 0 <= i < TIMESTAMP_COUNT => timestamp[i]);
      assert pad[..] == padding;
      assert stamps[..] == timestamp;
      this.padding := pad;
      this.timestamp := stamps;
    }

    function Value(): SyncValue
      reads this, header, padding, timestamp
    {
      SyncValue(header.Value(), senderSsrc, count, padding[..], timestamp[..])
    }
  }

  /** midi_packet_header_t: the RTP fixed header of a MIDI packet. `vpxcc` and
      `mpayload` start at VPXCC and MPAYLOAD. */
  class MidiPacketHeader {
    var vpxcc: uint8
    var mpayload: uint8
    var sequenceNumber: uint16
    var timestamp: uint32
    var senderSsrc: uint32

    constructor (sequenceNumber: uint16, timestamp: uint32, senderSsrc: uint32)
      ensures Value() == MidiHeaderValue(VPXCC as uint8, MPAYLOAD as uint8, sequenceNumber, timestamp, senderSsrc)
    {
      vpxcc := VPXCC as uint8;
      mpayload := MPAYLOAD as uint8;
      this.sequenceNumber := sequenceNumber;
      this.timestamp := timestamp;
      this.senderSsrc := senderSsrc;
    }

    function Value(): MidiHeaderValue
      reads this
    {
      MidiHeaderValue(vpxcc, mpayload, sequenceNumber, timestamp, senderSsrc)
    }
  }

  /** The byte layout of the RTP fixed header (section 5.1 of RFC 3550): the first byte
      holds the version (2 bits), padding (1), extension (1) and CSRC count (4); the
      second holds the marker (1) and the payload type (7). */
  function RtpVersion(b: uint8): int { b as int / 64 }
  function RtpPadding(b: uint8): bool { (b as int / 32) % 2 == 1 }
  function RtpExtension(b: uint8): bool { (b as int / 16) % 2 == 1 }
  function RtpCsrcCount(b: uint8): int { b as int % 16 }
  function RtpMarker(b: uint8): bool { b as int / 128 == 1 }
  function RtpPayloadType(b: uint8): int { b as int % 128 }

  /** A MIDI packet header whose first two bytes announce RTP version 2, no padding,
      no extension, no CSRC list, no marker, and payload type 0x61. */
  predicate IsRtpMidiHeader(h: MidiHeaderValue)
  {
    RtpVersion(h.vpxcc) == 2 && !RtpPadding(h.vpxcc) && !RtpExtension(h.vpxcc) &&
    RtpCsrcCount(h.vpxcc) == 0 && !RtpMarker(h.mpayload) && RtpPayloadType(h.mpayload) == MPAYLOAD as int
  }

  /** The struct defaults VPXCC and MPAYLOAD are exactly the bytes of such a header. */
  lemma DefaultsAreRtpMidiHeader(h: MidiHeaderValue)
    ensures IsRtpMidiHeader(h) <==> h.vpxcc == VPXCC as uint8 && h.mpayload == MPAYLOAD as uint8
  {
  }
}
