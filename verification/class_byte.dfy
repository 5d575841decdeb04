/** The class byte (CLA) rewrite that routes a command to a logical channel, following the
    interindustry class coding of ISO/IEC 7816-4:2005 section 5.1.1: channels 0-3 in the first
    interindustry coding (bits 1-2 carry the channel, bits 3-4 secure messaging), channels 4-19 in
    the further interindustry coding (bit 7 set, bits 1-4 carry channel - 4, bit 6 secure messaging). */
module ClassByte {
  import opened Protocol

  /** The logical channel a CLA byte addresses. */
  function ChannelOf(cla: Byte): nat
  {
    if cla & 0x40 == 0 then (cla & 0x03) as nat else 4 + (cla & 0x0F) as nat
  }

  /** Whether a CLA byte announces secure messaging, in whichever coding it uses. */
  predicate SecureMessaging(cla: Byte)
  {
    if cla & 0x40 == 0 then cla & 0x0C != 0 else cla & 0x20 != 0
  }

  /** A CLA in the first interindustry coding: bits 6-8 clear. */
  predicate FirstInterindustry(cla: Byte)
  {
    cla & 0xE0 == 0
  }

  /** The rewrite exactly as the session layer writes it: for channels 4-19 it sets bit 6 when
      the incoming CLA has NO secure-messaging bits. */
  function ApplyChannelAsWritten(cla: Byte, channel: nat): (r: Result<Byte>)
    ensures r.Ok? <==> channel < 20
    ensures r.Err? ==> r.error == InvalidChannel
    ensures r.Ok? ==> ChannelOf(r.value) == channel
    ensures channel < 4 ==> r.value & 0xBC == cla & 0xBC
    ensures 4 <= channel < 20 ==> r.value & 0x90 == cla & 0x90
    ensures 4 <= channel < 20 ==>
      (r.value & 0x20 != 0 <==> cla & 0x20 != 0 || cla & 0x0C == 0)
    ensures 4 <= channel < 20 && FirstInterindustry(cla) ==>
      SecureMessaging(r.value) == !SecureMessaging(cla)
  {
    if channel < 4 then
      Ok((cla & 0xBC) | channel as bv8)
    else if channel < 20 then
      var secure := if cla & 0x0C != 0 then false else true;
      var c := (cla & 0xB0) | 0x40 | (channel - 4) as bv8;
      Ok(if secure then c | 0x20 else c)
    else
      Err(InvalidChannel)
  }

  /** The rewrite with the secure-messaging indication carried over: for channels 4-19, bit 6 is
      set when the incoming CLA announces secure messaging in bits 3-4. */
  function ApplyChannel(cla: Byte, channel: nat): (r: Result<Byte>)
    ensures r.Ok? <==> channel < 20
    ensures r.Err? ==> r.error == InvalidChannel
    ensures r.Ok? ==> ChannelOf(r.value) == channel
    ensures channel < 4 ==> r.value & 0xBC == cla & 0xBC
    ensures 4 <= channel < 20 ==> r.value & 0x90 == cla & 0x90
    ensures 4 <= channel < 20 ==>
      (r.value & 0x20 != 0 <==> cla & 0x20 != 0 || cla & 0x0C != 0)
    ensures r.Ok? && FirstInterindustry(cla) ==> SecureMessaging(r.value) == SecureMessaging(cla)
  {
    if channel < 4 then
      Ok((cla & 0xBC) | channel as bv8)
    else if channel < 20 then
      var secure := cla & 0x0C != 0;
      var c := (cla & 0xB0) | 0x40 | (channel - 4) as bv8;
      Ok(if secure then c | 0x20 else c)
    else
      Err(InvalidChannel)
  }

  /** The two rewrites agree except on bit 6 for channels 4-19. */
  lemma AsWrittenDiffersOnlyInSecureBit(cla: Byte, channel: nat)
    ensures channel < 4 || 20 <= channel ==> ApplyChannelAsWritten(cla, channel) == ApplyChannel(cla, channel)
    ensures 4 <= channel < 20 ==>
      ApplyChannelAsWritten(cla, channel).value & 0xDF == ApplyChannel(cla, channel).value & 0xDF
  {
  }

  /** Inputs on which the rewrite as written gets secure messaging wrong: a plain CLA 00 on
      channel 4 comes out as 60, announcing secure messaging, and a CLA 0C that announces it comes
      out as 40, which does not. */
  lemma AsWrittenInvertsSecureMessaging()
    ensures ApplyChannelAsWritten(0x00, 4) == Ok(0x60) && !SecureMessaging(0x00) && SecureMessaging(0x60)
    ensures ApplyChannelAsWritten(0x0C, 4) == Ok(0x40) && SecureMessaging(0x0C) && !SecureMessaging(0x40)
    ensures ApplyChannel(0x00, 4) == Ok(0x40) && ApplyChannel(0x0C, 4) == Ok(0x60)
  {
  }

  /** The command with its CLA rewritten for `channel` as the session layer writes it; every other
      byte is left as it was. */
  function OnChannel(apdu: Bytes, channel: nat): (r: Result<Bytes>)
    requires apdu != []
    ensures r.Ok? <==> channel < 20
    ensures r.Ok? ==> |r.value| == |apdu| && r.value[1..] == apdu[1..]
    ensures r.Ok? ==> ChannelOf(r.value[0]) == channel
  {
    match ApplyChannelAsWritten(apdu[0], channel)
    case Err(e) => Err(e)
    case Ok(cla) => Ok([cla] + apdu[1..])
  }
}
