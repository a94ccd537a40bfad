# AppleMIDI session participant

A model of the participant side of Apple's RTP-MIDI session protocol (RFC 6295). It covers the class `RTPMIDI` and the packet records it fills in. The participant holds a session identity, a 32-bit ssrc and a name. It offers three packet builders:

- **accept**: answers an invitation (`IN`) with an acceptance (`OK`). The acceptance echoes the initiator's token and carries the local ssrc and name.
- **synchronization_response**: answers step 0 of the three-way clock synchronisation (`CK`, count 0) with step 1. Step 1 copies the initiator's timestamp and adds the local one.
- **generate_midi_header**: fills in the sequence number, timestamp and ssrc of the RTP fixed header of a MIDI packet. The RTP fixed header is defined in section 5.1 of RFC 3550. Its first two bytes keep their defaults `0x80` and `0x61`.

`accept` and `synchronization_response` check their input first. On a mismatch they return an error (`RTPMIDI_ERROR_COMMAND`, `RTPMIDI_ERROR_SYNC`) before writing anything. `generate_midi_header` checks nothing and returns nothing.

Layout:

- `cstrings.dfy` (module `CStrings`) models the C library behaviour the participant relies on:
  - reading a `char` buffer as a NUL-terminated string (`CString`);
  - `strcpy` into a fixed buffer (`StrCopied`, `StrCpy`);
  - a `char[n]` array initialised from a string literal (`CharArrayInit`).
- `packets.dfy` (module `Packets`) holds the fixed-width integer types, the enum constants and the error codes. It also holds the four packet records:
  - each record is a class, because the participant writes them through references;
  - each class has a `Value()` snapshot as a datatype;
  - it also decodes the RTP header bytes as section 5.1 of RFC 3550 lays them out.
- `apple_midi.dfy` (module `AppleMidi`) holds the class `RtpMidi`. Each operation appears twice:
  - as a function on packet values (`AcceptReply`, `SyncReply`, `SetCommand`, `MidiHeaderFill`), with the contracts and lemmas that state what it promises;
  - as a method that writes the caller's packet in place and is proved to leave it as the function says.
- `scenarios.dfy` (module `Scenarios`) restates the unit-test cases as client methods. Fields the source leaves uninitialised are parameters, so each scenario holds for every prior content.

Modelling notes:

- Uninitialised fields. A C++ field without an initialiser starts with an indeterminate value. Here such a field is a constructor argument, so every property holds whatever the field held before.
- Name field. `char name[32]` is an array of 32 `char`s. After `accept` it holds three parts: the local name up to its first NUL, a NUL, and then whatever the array held before.
- Names read. The unit test compares names with `strcmp`, and against a `std::string` built from the array. Both read the array up to its first NUL, which `CString` models.
- Name length. The class invariant `Valid()` requires the name to fit its field: `|CString(name)| < 32`. That is exactly what `strcpy` needs in order not to overflow `char name[32]`. The default name `"mbed-rtp-midi"` satisfies it (`DefaultNameFits`).
- Command width. `set_command_header` takes a 32-bit enumerator and stores it in a 16-bit field. The store is modelled as reduction modulo 2^16. Every command enumerator fits (`CommandsFitHeader`).
- Aliasing. The methods allow the incoming packet and the response packet to be the same object, as C++ references do. Their contracts are stated over the `old` values.
- Identity. `_ssrc` and `_name` are private and nothing reassigns them, so they are `const` fields here. The header declares no constructor: `_ssrc` starts at 0 and `_name` at `"mbed-rtp-midi"`. That is `RtpMidi.Default`. The unit test builds the participant with an ssrc and a name, which is the other constructor. The test also passes a socket; that argument is left out.
- Test versus header. The unit test calls the acceptance operation `accept_response`. The header names it `accept`, and the model follows the header.
- Truncation. The code calls `strcpy`, which writes past the array if the name is too long; the model rules that case out by `Valid()`.

## Model

| member | source | states |
|---|---|---|
| CStrings.CString | connectivity/FEATURE_RTP_MIDI/tests/UNITTESTS/rtpmidi/test_rtpmidi.cpp:68-76 | the name `strcmp` compares is a prefix of the buffer that has no NUL and is followed by the buffer's first NUL, or is the whole buffer |
| CStrings.CStringUnique | connectivity/FEATURE_RTP_MIDI/tests/UNITTESTS/rtpmidi/test_rtpmidi.cpp:68-76 | those three properties determine the read-back string uniquely |
| CStrings.CStringOfNulFree | connectivity/FEATURE_RTP_MIDI/tests/UNITTESTS/rtpmidi/test_rtpmidi.cpp:99 | a string without NUL reads back as itself, so an array holding it compares equal to `name()` |
| CStrings.StrCopied | connectivity/FEATURE_RTP_MIDI/include/RTPMIDI.h:90 | after `strcpy` the buffer keeps its length and reads back as the source's C string; the terminator follows it, and the bytes beyond keep their old values |
| CStrings.StrCopiedTwice | connectivity/FEATURE_RTP_MIDI/include/RTPMIDI.h:90 | copying the same name twice leaves the buffer as the first copy did |
| CStrings.CharArrayInit | connectivity/FEATURE_RTP_MIDI/tests/UNITTESTS/rtpmidi/test_rtpmidi.cpp:57-64 | a `char[32]` initialised from a literal reads back as the literal and is NUL-filled after it |
| CStrings.StrCpy | connectivity/FEATURE_RTP_MIDI/include/RTPMIDI.h:90 | the array after `strcpy` is `StrCopied` of its old contents |
| Packets.RtpMidiError.Code | connectivity/FEATURE_RTP_MIDI/include/RTPMIDI.h:41-45 | the code is 0 exactly for success and negative for each error |
| Packets.CommandHeader.constructor | connectivity/FEATURE_RTP_MIDI/include/RTPMIDI.h:48-51 | a header starts with signature 0xFFFF |
| Packets.ExchangePacket.constructor | connectivity/FEATURE_RTP_MIDI/include/RTPMIDI.h:54-60 | an exchange packet starts with signature 0xFFFF and protocol version 2, and has a 32-char name field |
| Packets.SynchronizationPacket.constructor | connectivity/FEATURE_RTP_MIDI/include/RTPMIDI.h:63-69 | a sync packet starts with signature 0xFFFF and has 3 padding bytes and 3 timestamps |
| Packets.MidiPacketHeader.constructor | connectivity/FEATURE_RTP_MIDI/include/RTPMIDI.h:72-78 | a MIDI header starts with bytes 0x80 and 0x61 |
| Packets.DefaultsAreRtpMidiHeader | connectivity/FEATURE_RTP_MIDI/include/RTPMIDI.h:27-28 | a header decodes as RTP version 2, no padding, no extension, no CSRC, no marker, payload type 0x61 (section 5.1 of RFC 3550) exactly when its bytes are VPXCC and MPAYLOAD |
| AppleMidi.DefaultNameFits | connectivity/FEATURE_RTP_MIDI/include/RTPMIDI.h:134 | the default name has no NUL and fits the 32-char field with its terminator |
| AppleMidi.SetCommand | connectivity/FEATURE_RTP_MIDI/include/RTPMIDI.h:109-112 | only the command changes: it becomes the argument modulo 2^16, exactly the argument when that fits, and the signature is kept |
| AppleMidi.CommandsFitHeader | connectivity/FEATURE_RTP_MIDI/include/RTPMIDI.h:32-38 | every command enumerator is stored exactly in the 16-bit field |
| AppleMidi.AcceptReply | connectivity/FEATURE_RTP_MIDI/include/RTPMIDI.h:82-92 | it fails with a command error exactly when the command is not INV, and then the response is unchanged; otherwise it succeeds with an acceptance that echoes the token and carries the local ssrc and a name reading back as the local name. Signature, protocol version and the name bytes past the terminator are always kept |
| AppleMidi.SamePacket | connectivity/FEATURE_RTP_MIDI/tests/UNITTESTS/rtpmidi/test_rtpmidi.cpp:68-76 | the `Equals` matcher: equal packets match, and matching packets have the same header, version, token and ssrc and the same name as C strings, differing at most in name bytes past the terminator |
| AppleMidi.ExpectedAcceptance | connectivity/FEATURE_RTP_MIDI/tests/UNITTESTS/rtpmidi/test_rtpmidi.cpp:57-64 | the expected response is an acceptance of the given token from the given ssrc and name, with signature 0xFFFF, protocol version 2 and a 32-char name field |
| AppleMidi.AcceptMatchesExpected | connectivity/FEATURE_RTP_MIDI/tests/UNITTESTS/rtpmidi/test_rtpmidi.cpp:57-76 | an invitation answered into a packet with default signature and version matches the expected acceptance field by field under the `Equals` comparison; its name reads back as the NUL-free local name |
| AppleMidi.AcceptanceIsNoInvitation | connectivity/FEATURE_RTP_MIDI/include/RTPMIDI.h:84-87 | an acceptance fed back to accept is refused with a command error and writes nothing |
| AppleMidi.AcceptTwice | connectivity/FEATURE_RTP_MIDI/include/RTPMIDI.h:82-92 | answering the same invitation again into the answered packet changes nothing |
| AppleMidi.SyncReply | connectivity/FEATURE_RTP_MIDI/include/RTPMIDI.h:94-107 | it fails with a sync error exactly when the count is not SYNC0, and then the response is unchanged. Otherwise it gives CK, the local ssrc, count SYNC1, timestamp[0] copied from the initiator and timestamp[1] set to the given time. timestamp[2], the padding and the signature are always kept |
| AppleMidi.SyncReplyIsNoStep0 | connectivity/FEATURE_RTP_MIDI/include/RTPMIDI.h:98-103 | a step-1 reply fed back to the responder is refused with a sync error and writes nothing |
| AppleMidi.SyncReplyTwice | connectivity/FEATURE_RTP_MIDI/include/RTPMIDI.h:94-107 | answering the same step-0 packet again with the same time changes nothing |
| AppleMidi.MidiHeaderFill | connectivity/FEATURE_RTP_MIDI/include/RTPMIDI.h:114-120 | on values: sequence number, timestamp and ssrc become the given ones, and vpxcc and mpayload are kept |
| AppleMidi.MidiHeaderFillKeepsRtpHeader | connectivity/FEATURE_RTP_MIDI/include/RTPMIDI.h:114-120 | the header gets exactly the given sequence number and timestamp and the local ssrc, and its RTP first bytes are kept, so a valid RTP MIDI header stays one |
| AppleMidi.RtpMidi.Default | connectivity/FEATURE_RTP_MIDI/include/RTPMIDI.h:133-134 | the default participant has ssrc 0 and name "mbed-rtp-midi" and satisfies the invariant |
| AppleMidi.RtpMidi.constructor | connectivity/FEATURE_RTP_MIDI/tests/UNITTESTS/rtpmidi/test_rtpmidi.cpp:81 | `ssrc()` and `name()` return the identity the participant was built with, and the name fits the field |
| AppleMidi.RtpMidi.Ssrc | connectivity/FEATURE_RTP_MIDI/include/RTPMIDI.h:122-125 | the getter returns the session ssrc, which is fixed at construction |
| AppleMidi.RtpMidi.Name | connectivity/FEATURE_RTP_MIDI/include/RTPMIDI.h:127-130 | the getter returns the session name, which is fixed at construction; for a valid participant its C string fits `char name[32]` with the terminator |
| AppleMidi.RtpMidi.Accept | connectivity/FEATURE_RTP_MIDI/include/RTPMIDI.h:82-92 | the response packet afterwards is `AcceptReply` of the packets before. On a non-INV command it returns the command error and writes nothing; on INV it writes command, token, ssrc and name, and keeps the signature and protocol version. The participant itself is not modified |
| AppleMidi.RtpMidi.SynchronizationResponse | connectivity/FEATURE_RTP_MIDI/include/RTPMIDI.h:94-107 | the response packet afterwards is `SyncReply` of the packets before; on a count other than SYNC0 nothing is written, and padding, timestamp[2] and signature are never written |
| AppleMidi.RtpMidi.SetCommandHeader | connectivity/FEATURE_RTP_MIDI/include/RTPMIDI.h:109-112 | the header afterwards is `SetCommand` of the header before; the signature is never written |
| AppleMidi.RtpMidi.GenerateMidiHeader | connectivity/FEATURE_RTP_MIDI/include/RTPMIDI.h:114-120 | sequence number, timestamp and ssrc are as given; vpxcc and mpayload are kept |
| Scenarios.GeneratesAcceptInvitationPacket | connectivity/FEATURE_RTP_MIDI/tests/UNITTESTS/rtpmidi/test_rtpmidi.cpp:87-101 | for any prior packet contents: OK, signature 0xFFFF, command 0x4F4B, version 2, the invitation's token, ssrc 0xdbffa3a1, name "NAME" |
| Scenarios.ErrorOnInvalidInvitationPacket | connectivity/FEATURE_RTP_MIDI/tests/UNITTESTS/rtpmidi/test_rtpmidi.cpp:103-110 | command 0 gives error -9001 and leaves the response packet as it was |
| Scenarios.SendsCorrectResponseToInvitation | connectivity/FEATURE_RTP_MIDI/tests/UNITTESTS/rtpmidi/test_rtpmidi.cpp:48-76 | the invitation from token 0x327b23c6, ssrc 0xa556f4da and name "HOST" is answered with a packet equal to the expected acceptance |
| Scenarios.GeneratesResponseToSynchronizationPacket | connectivity/FEATURE_RTP_MIDI/tests/UNITTESTS/rtpmidi/test_rtpmidi.cpp:112-133 | step 0 stamped 1234 and answered at 4321 gives CK, the local ssrc, count 1 and timestamps 1234 and 4321; timestamp[2] and the padding are kept |
| Scenarios.ErrorOnInvalidSynchronizationPacket | connectivity/FEATURE_RTP_MIDI/tests/UNITTESTS/rtpmidi/test_rtpmidi.cpp:135-147 | count 1 gives error -9002 and leaves the response packet as it was |
| Scenarios.GeneratesMidiPacketHeader | connectivity/FEATURE_RTP_MIDI/tests/UNITTESTS/rtpmidi/test_rtpmidi.cpp:149-161 | bytes 0x80 and 0x61, sequence number 1, timestamp 1234 and the local ssrc, forming a valid RTP MIDI header |

## Left out

- connectivity/FEATURE_RTP_MIDI/source/RTPMIDI.cpp (`connect`, `connect_to_network`, `exchange_handshake`): network and socket I/O through interfaces that are not part of this model. It also uses a constructor and members the header does not declare.
- Byte-order conversion (`htons`, `htonl`, `to_network_order`): no definition of it is part of this model, so packets are modelled in host order only and no encode/decode round trip is stated.
- `participate()` is called by the unit test but declared nowhere. `Scenarios.SendsCorrectResponseToInvitation` checks what that test expects of the acceptance itself, without sockets or byte order.
- The socket argument of the test's three-argument constructor is left out: the header's class holds no socket.
- Clock-synchronisation scheduling, the initial sync burst, the MIDI transport buffer and its flushes, and the session state machine: none of them is in the modelled code; they would involve timers, threads and sockets.
- connectivity/FEATURE_RTP_MIDI/include/MIDIReadWrite.h: an interface without behaviour.
- Characters: a C++ `char` is a byte; the model uses Dafny's `char`. No operation here depends on the difference.
- CStrings.CString: a buffer without any NUL reads back whole; in C the read would run past the array. Every buffer the participant writes has a terminator, so the case never arises in the model's operations.
