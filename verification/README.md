# Secure-element command interface (shadysim `sects.py`)

This project models `CommandInterface` from `shadysim/sects.py`, the APDU session layer of a
secure-element compliance harness. It drives a smart card through a transport that exchanges one
command APDU for one response (data field plus status word SW1 SW2). On top of that exchange it
builds:

- a BER-TLV header decoder (`extract_value`, ITU-T X.690 sections 8.1.2 and 8.1.3);
- a response chainer (`send_apdu_raw`), which resends once after a wrong-length answer (SW1 6C)
  and fetches the rest with GET RESPONSE while the card answers 61xx or 9Fxx (ISO/IEC 7816-4:2005
  section 7.6.1);
- a class-byte rewrite that routes a command to logical channel 0-19 (ISO/IEC 7816-4:2005
  section 5.1.1);
- the channel session operations: MANAGE CHANNEL open and close (section 7.1.2), SELECT by AID
  (section 7.1.1), the open-select-transmit-close sequence `send_apdu`, and the terminal profile
  download with its 91xx follow-up.

Layout:

- `protocol.dfy` (`Protocol`): bytes, replies, errors, and `Run`, the record of what a
  sequence of exchanges did against a card whose answers are known in advance: the commands sent,
  how many answers it consumed, and the outcome.
- `tlv.dfy` (`Tlv`): the header decoder as functions (`TagSize`, `Header`, `Extract`), plus
  an encoder (`Node`, `Encode`) that the decoder is proved against.
- `class_byte.dfy` (`ClassByte`): the CLA rewrite, both as written, which the session layer uses, and
  corrected (see Findings).
- `chaining.dfy` (`Chaining`): `RawRun`, everything `send_apdu_raw` sends and returns, and the
  lemmas that describe its command trace and output.
- `session.dfy` (`Session`): one `Run` function per session operation, and lemmas about
  `send_apdu` as a whole.
- `sects.dfy` (`Sects`): the imperative model.
  - `ScriptedLink` is the transport: a queue of answers still to come and a log of the commands
    sent.
  - `CommandInterface` holds the link and has one method per operation of the source, with the
    source's loops.
  - Each method is proved to leave the link exactly as the matching `Run` function says: log
    extended by the commands sent, script shortened by the answers used, and the result returned.

Bytes are `bv8`. The source works on hex strings, so its length tests are restated in bytes:
- fewer than 8 hex digits means fewer than 4 bytes;
- "not 2 hex digits" means "not exactly 1 byte";
- fewer than 3 hex digits means fewer than 2 bytes.

Where the source raises an exception, the model returns `Err` with an `Error` value naming the
kind of failure.

## Model

| member | source | states |
|---|---|---|
| Tlv.ContinuationEnd | shadysim/sects.py:38-43 | the continuation scan stops just after the first octet with bit 8 clear; every octet before it has bit 8 set; no stopping point means every remaining octet has bit 8 set |
| Tlv.TagSize | shadysim/sects.py:32-43 | the identifier is one octet unless bits 1-5 of the first are all 1; its size never exceeds the input |
| Tlv.Header | shadysim/sects.py:32-60 | a header has at least one identifier octet and one length octet and lies within the input |
| Tlv.HeaderAfterTag | shadysim/sects.py:45-60 | unfolds `Header` for the length-loop proof: no length octet fails; a length octet of 127 or less is the length itself; a long form whose count runs past the input fails |
| Tlv.HeaderLongForm | shadysim/sects.py:52-58 | unfolds `Header` for the length-loop proof: a length octet 128 + n is followed by n octets read big-endian as the length |
| Tlv.Extract | shadysim/sects.py:31-62 | succeeds exactly when the header is complete; value followed by remainder is the input minus the header; the value is the announced length clamped to what is left; the remainder is shorter than the input |
| Tlv.WalkTlvs | shadysim/sects.py:114-116 | the walk over a template's value: a non-empty input that walks starts with a complete TLV header of at least two octets |
| Tlv.ExtractEncode | shadysim/sects.py:31-62 | decoding an encoded TLV (any valid tag, short or long length) followed by anything gives back the value and exactly what followed |
| Tlv.WalkEncodeAll | shadysim/sects.py:114-116 | a concatenation of encoded TLVs is walked to the end without error |
| Tlv.ExtractShortForm | shadysim/sects.py:45-62 | a one-octet tag, a short length L and at least L octets decode to those L octets and the rest |
| ClassByte.ApplyChannelAsWritten | shadysim/sects.py:119-128 | channel 20 or more is an error; the result addresses the channel; only the channel and secure-messaging bits change; for channels 4-19 bit 6 is set when the incoming CLA has bit 6 set or no bits 3-4, so secure messaging is inverted for a first-coding CLA |
| ClassByte.ApplyChannel | shadysim/sects.py:119-128 | as above, but secure messaging is kept: a first-coding CLA announces it exactly when the result does |
| ClassByte.AsWrittenDiffersOnlyInSecureBit | shadysim/sects.py:123-126 | the two rewrites agree except on bit 6 for channels 4-19 |
| ClassByte.AsWrittenInvertsSecureMessaging | shadysim/sects.py:123-126 | CLA 00 on channel 4 becomes 60 (secure messaging) as written and 40 corrected; CLA 0C becomes 40 as written and 60 corrected |
| ClassByte.OnChannel | shadysim/sects.py:119-129 | the command with its class byte rewritten as written (`ApplyChannelAsWritten`): only the first byte changes, and it addresses the requested channel; channel 20 or more is an error |
| Chaining.RawRun | shadysim/sects.py:64-78 | a command under 4 bytes sends nothing and fails; otherwise the command itself goes first; on success every command got an answer |
| Chaining.ChainRun | shadysim/sects.py:72-77 | the GET RESPONSE loop never consumes more answers than there are; when it ends normally the last status word asks for no more data; its only failure is running out of answers |
| Chaining.ChainTrace | shadysim/sects.py:72-77 | each GET RESPONSE follows a 61xx/9Fxx answer and asks for its SW2; the output is the data gathered so far followed by every fetched data field in order; the status word is the last answer's and asks for no more; failure only when the answers run out |
| Chaining.RawTrace | shadysim/sects.py:64-78 | the command goes first; after a 6C answer the second command is the same command with its last byte replaced by SW2; later commands are GET RESPONSE on the command's CLA; the output is the data of every answer from the baseline on and the status word is the last answer's |
| Chaining.SecondWrongLengthReturned | shadysim/sects.py:69-71 | a second 6C answer is returned as is, after exactly two commands |
| Chaining.RawRunStart | shadysim/sects.py:65-72 | unfolds `RawRun` for the method proof: after the first answer, the chainer continues with the GET RESPONSE loop, or retries once on 6C and then loops |
| Chaining.ChainStep | shadysim/sects.py:73-77 | unfolds `ChainRun` for the loop invariant: one loop turn sends GET RESPONSE for the last SW2 and appends the next answer's data |
| Session.OpenRun | shadysim/sects.py:87-93 | sends 00 70 00 00 01; succeeds exactly on a 90xx answer with one data byte, which is the channel; a different SW1 and a wrong data size are told apart |
| Session.CloseRun | shadysim/sects.py:95-98 | sends 00 70 80 channel; succeeds exactly on a 90xx answer |
| Session.SelectRun | shadysim/sects.py:100-105 | sends SELECT by AID through the chainer with the channel number as CLA; succeeds exactly when the chained answer's SW1 is 90 and then returns its data |
| Session.SelectCheckedRun | shadysim/sects.py:107-116 | sends what SELECT sends; succeeds exactly when SELECT succeeds with at least 2 bytes that hold a complete TLV whose value walks as a sequence of TLVs |
| Session.OnChannelRun | shadysim/sects.py:118-131 | an empty command or channel 20 or more sends nothing and fails; otherwise the first command sent is the rerouted one; success needs at least 4 bytes |
| Session.SendApduRun | shadysim/sects.py:133-138 | never consumes more answers than the card has |
| Session.TerminalProfileRun | shadysim/sects.py:80-85 | sends the fixed TERMINAL PROFILE; without 91xx its answer is returned; after 91xx it sends FETCH with SW2 and the fixed TERMINAL RESPONSE and returns the third answer; failure only when answers run out |
| Session.SendApduStages | shadysim/sects.py:133-138 | unfolds `SendApduRun` stage by stage for the method proof: the sequence stops at the first failing step with that step's error, having sent exactly the commands of the steps so far |
| Session.SendApduSteps | shadysim/sects.py:133-138 | a successful `send_apdu` sends open, SELECT on the returned channel, the rerouted command and its GET RESPONSEs, then close of the same channel, in that order; it returns the transmit step's result |
| Session.SelectFailureLeavesChannelOpen | shadysim/sects.py:133-135 | when SELECT fails, that failure is returned and no close is sent for the channel opened |
| Session.SendApduOnPlainCard | shadysim/sects.py:133-138 | on a card that answers 9000 throughout, exactly four commands are sent and the transmit answer is returned |
| Session.SendApduWithGetResponse | shadysim/sects.py:72-77 | a 61xx transmit answer is completed by one GET RESPONSE on the rerouted CLA; the output is both parts in order |
| Session.FetchOnce | shadysim/sects.py:72-77 | a 61xx answer followed by a 90xx answer gives one GET RESPONSE and both data fields |
| Session.PlainCommandOnChannelFour | shadysim/sects.py:118-131 | the command 00 06 00 00 on channel 4 goes out with class byte 60, as the source computes it |
| Session.OnChannelRoutes | shadysim/sects.py:118-131 | the command sent differs from the caller's only in its class byte, which addresses the channel |
| Session.SelectCheckedAcceptsTemplate | shadysim/sects.py:107-116 | a 90xx SELECT answer that is an encoded TLV holding encoded TLVs passes the check |
| Sects.ScriptedLink.SendApdu | shadysim/sects.py:67 | one exchange: the command is logged and the next answer, if any, is consumed and returned |
| Sects.CommandInterface.ReadTag | shadysim/sects.py:32-43 | the tag loop consumes exactly `TagSize` octets, failing when the input ends first |
| Sects.CommandInterface.ReadLength | shadysim/sects.py:45-60 | the length loop yields exactly `Header`: the header size and the short or big-endian long length |
| Sects.CommandInterface.ExtractValue | shadysim/sects.py:31-62 | returns exactly `Extract` of its input |
| Sects.CommandInterface.SendApduRaw | shadysim/sects.py:64-78 | leaves the link as `RawRun` says |
| Sects.CommandInterface.FetchRemaining | shadysim/sects.py:72-77 | the GET RESPONSE loop leaves the link as `ChainRun` says |
| Sects.CommandInterface.SendTerminalProfile | shadysim/sects.py:80-85 | leaves the link as `TerminalProfileRun` says |
| Sects.CommandInterface.OpenLogicalChannel | shadysim/sects.py:87-93 | leaves the link as `OpenRun` says |
| Sects.CommandInterface.CloseLogicalChannel | shadysim/sects.py:95-98 | leaves the link as `CloseRun` says |
| Sects.CommandInterface.SelectApplication | shadysim/sects.py:100-105 | leaves the link as `SelectRun` says |
| Sects.CommandInterface.SelectApplicationWithCheckResponse | shadysim/sects.py:107-116 | leaves the link as `SelectCheckedRun` says; the TLV walk sends nothing |
| Sects.CommandInterface.SendApduOnChannel | shadysim/sects.py:118-131 | leaves the link as `OnChannelRun` says |
| Sects.CommandInterface.SendApdu | shadysim/sects.py:133-138 | leaves the link as `SendApduRun` says |

## Left out

- The PC/SC transport `PcscSimLink` and waiting for a card are not part of this model. The transport is a scripted link that answers from a list given in advance.
- A transport failure, including running out of scripted answers, is the single error `NoReply`. The command that went unanswered is still logged.
- The command-line parsing, the top-level script and the `OmapiTest` scenarios are left out; they are driver and I/O code, not session logic.
- Exception message texts are left out, including the string-plus-integer concatenation in the channel error at line 128. Each failure is an `Error` kind.
- Hex-string encoding and decoding (`format(..., '02X')`, `int(..., 16)`) are left out: the model works on bytes.
  - Odd-length hex input has no counterpart.
  - A command that is empty or not valid hex makes `int('', 16)` raise in `send_apdu_on_channel`; it is modelled as `ApduTooShort`.
- Session.SelectRun: requires an AID shorter than 256 bytes. For longer AIDs, `format(len(aid) // 2, '02X')` produces three hex digits and a malformed command.
- Sects.CommandInterface.SendApduOnChannel: the channel number is a `nat`. Negative channel numbers, which the source sends into the channel 0-3 branch, are not modelled.
- Sects.CommandInterface.SelectApplication: the channel byte is the CLA as given, with no channel rewrite, as in the source. Channel numbers of 256 or more, which would give a three-digit class byte, are outside the byte type.
- The TLV encoder takes explicit length octets. It does not choose a minimal length encoding, and there is no function from a number to its length octets. The decoder's round trip is proved for every valid choice.

## Findings

| source | as written | input that shows it | evidently intended | confidence | as-written member | corrected member |
|---|---|---|---|---|---|---|
| shadysim/sects.py:123 | for channels 4-19 the secure-messaging flag is set when bits 3-4 of the incoming CLA are both clear, i.e. when the command does NOT use secure messaging | CLA 00 (no secure messaging) on channel 4 gives 60, which announces secure messaging; CLA 0C (secure messaging) gives 40, which does not | the flag set when bits 3-4 are not both clear, so the rerouted CLA announces secure messaging exactly when the original did (00 gives 40, 0C gives 60) | not executed; medium | ClassByte.AsWrittenInvertsSecureMessaging | ClassByte.ApplyChannel |

The session operations (`ClassByte.OnChannel`, `Session.OnChannelRun`, `Session.SendApduRun` and
the `Sects.CommandInterface` methods) send the class byte as written, so the model sends what
the program sends. `ClassByte.ApplyChannel` is the corrected rewrite. For it, carrying over
secure messaging is proved, and `ClassByte.AsWrittenDiffersOnlyInSecureBit` shows that only
bit 6 would change.
