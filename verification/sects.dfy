/** The command interface of the secure-element test harness: an object holding a transport and
    driving APDU exchanges over it. The transport is a card whose answers are given in advance,
    and which records every command it receives. */
module Sects {
  import opened Protocol
  import opened ClassByte
  import opened Chaining
  import opened Session
  import Tlv

  /** A transport with a queue of answers still to come and the log of commands sent so far. */
  class ScriptedLink {
    var script: seq<Reply>
    var log: seq<Bytes>

    constructor (answers: seq<Reply>)
      ensures script == answers && log == []
    {
      script := answers;
      log := [];
    }

    /** The link's state after `run` started from `log0` and `script0` and returned `r`. */
    ghost predicate Did<T>(run: Run<T>, r: Result<T>, log0: seq<Bytes>, script0: seq<Reply>)
      reads this
    {
      && run.used <= |script0|
      && log == log0 + run.sent
      && script == script0[run.used..]
      && r == run.result
    }

    /** Two runs one after the other leave the link as their concatenation does. */
    lemma DidThen<A, B>(a: Run<A>, b: Run<B>, r: Result<B>, log0: seq<Bytes>, script0: seq<Reply>,
                        log1: seq<Bytes>, script1: seq<Reply>)
      requires a.used <= |script0| && log1 == log0 + a.sent && script1 == script0[a.used..]
      requires Did(b, r, log1, script1)
      ensures Did(Then(a, b), r, log0, script0)
    {
      assert script0[a.used..][b.used..] == script0[a.used + b.used..];
    }

    /** One blocking exchange: the command is logged and answered by the next reply, if any. */
    method SendApdu(cmd: Bytes) returns (r: Result<Reply>)
      modifies this
      ensures Did(Exchange(cmd, old(script)), r, old(log), old(script))
    {
      log := log + [cmd];
      if script == [] {
        r := Err(NoReply);
      } else {
        r := Ok(script[0]);
        script := script[1..];
      }
    }
  }

  class CommandInterface {
    const link: ScriptedLink

    constructor (link: ScriptedLink)
      ensures this.link == link
    {
      this.link := link;
    }

    /** The identifier octets of `extract_value`: one octet, or, when its bits 1-5 are all 1,
        the octets after it up to and including the first with bit 8 clear. Returns how many. */
    method ReadTag(response: Bytes) returns (r: Option<nat>)
      ensures r == Tlv.TagSize(response)
    {
      var rest := response;
      if rest == [] {
        return None;
      }
      var tagFirst := rest[0];
      rest := rest[1..];
      var pos := 1;
      if tagFirst & 0x1F == 0x1F {
        while true
          invariant 1 <= pos <= |response| && rest == response[pos..]
          invariant Tlv.ContinuationEnd(response, 1) == Tlv.ContinuationEnd(response, pos)
          decreases |rest|
        {
          if rest == [] {
            return None;
          }
          var tagSubsequent := rest[0];
          Tlv.ContinuationStep(response, pos);
          rest := rest[1..];
          pos := pos + 1;
          if tagSubsequent & 0x80 != 0x80 {
            break;
          }
        }
      }
      r := Some(pos);
    }

    /** The length octets of `extract_value`, read after `tagSize` identifier octets: a short
        form, or a count of big-endian octets with bit 8 set. Returns the header size and the
        length. */
    method ReadLength(response: Bytes, tagSize: nat) returns (r: Option<(nat, nat)>)
      requires Tlv.TagSize(response) == Some(tagSize)
      ensures r == Tlv.Header(response)
    {
      Tlv.HeaderAfterTag(response, tagSize);
      var rest := response[tagSize..];
      var length := 0;
      if rest == [] {
        return None;
      }
      var lengthByte := rest[0];
      rest := rest[1..];
      var pos := tagSize + 1;
      if lengthByte as nat > 127 {
        var lengthSize: nat := lengthByte as nat - 128;
        ghost var n := lengthSize;
        while lengthSize > 0
          invariant tagSize + 1 <= pos <= |response| && rest == response[pos..]
          invariant pos - (tagSize + 1) + lengthSize == n
          invariant length == Tlv.BigEndian(response[tagSize + 1..pos])
        {
          if rest == [] {
            return None;
          }
          lengthByte := rest[0];
          rest := rest[1..];
          Tlv.BigEndianStep(response, tagSize + 1, pos);
          pos := pos + 1;
          length := length * 256 + lengthByte as nat;
          lengthSize := lengthSize - 1;
        }
        Tlv.HeaderLongForm(response, tagSize, pos, length);
      } else {
        length := lengthByte as nat;
      }
      r := Some((pos, length));
    }

    /** `extract_value`: reads one TLV header from the front of `response` and returns the value
        it announces (cut short at the end of the input) and what follows it. */
    method ExtractValue(response: Bytes) returns (r: Result<(Bytes, Bytes)>)
      ensures r == Tlv.Extract(response)
    {
      var tagSize := ReadTag(response);
      if tagSize.None? {
        Tlv.HeaderMissingTag(response);
        return Err(MalformedTlv);
      }
      var header := ReadLength(response, tagSize.value);
      if header.None? {
        return Err(MalformedTlv);
      }
      var (size, length) := header.value;
      Tlv.ExtractOfHeader(response, size, length);
      var rest := response[size..];
      var k := Min(length, |rest|);
      r := Ok((rest[..k], rest[k..]));
    }

    /** `send_apdu_raw`: sends the command, resends it once with the corrected Le after a 6Cxx
        answer, then fetches with GET RESPONSE while the card answers 61xx or 9Fxx. */
    method SendApduRaw(apdu: Bytes) returns (r: Result<Reply>)
      modifies link
      ensures link.Did(RawRun(apdu, old(link.script)), r, old(link.log), old(link.script))
    {
      ghost var script0, log0 := link.script, link.log;
      if |apdu| < 4 {
        return Err(ApduTooShort);
      }
      var x := link.SendApdu(apdu);
      if x.Err? {
        return Err(x.error);
      }
      RawRunStart(apdu, script0);
      var reply := x.value;
      ghost var sent, used := [apdu], 1;
      if reply.sw1 == 0x6C {
        var retry := WithLe(apdu, reply.sw2);
        x := link.SendApdu(retry);
        sent := sent + [retry];
        if x.Err? {
          return Err(x.error);
        }
        reply := x.value;
        used := 2;
      }
      ghost var log1, script1 := link.log, link.script;
      r := FetchRemaining(apdu[0], reply, reply.data);
      link.DidThen(Sent(sent, used), ChainRun(apdu[0], reply, reply.data, script1), r, log0, script0, log1, script1);
    }

    /** The GET RESPONSE loop of `send_apdu_raw`: while the last answer asks for more data, GET
        RESPONSE on the command's class for the count it gave, appending each data field. */
    method FetchRemaining(cla: Byte, last: Reply, out: Bytes) returns (r: Result<Reply>)
      modifies link
      ensures link.Did(ChainRun(cla, last, out, old(link.script)), r, old(link.log), old(link.script))
    {
      ghost var script0, log0 := link.script, link.log;
      ghost var sent: seq<Bytes>, used := [], 0;
      var reply, output := last, out;
      while MoreData(reply.sw1)
        invariant used <= |script0| && link.script == script0[used..]
        invariant link.log == log0 + sent
        invariant var c := ChainRun(cla, reply, output, link.script);
          ChainRun(cla, last, out, script0) == Run(sent + c.sent, used + c.used, c.result)
        decreases |link.script|
      {
        ChainStep(cla, reply, output, link.script, sent, used);
        var cmd := GetResponse(cla, reply.sw2);
        var x := link.SendApdu(cmd);
        sent := sent + [cmd];
        if x.Err? {
          return Err(x.error);
        }
        used := used + 1;
        reply := x.value;
        output := output + reply.data;
      }
      r := Ok(Reply(output, reply.sw1, reply.sw2));
    }

    /** `send_terminal_profile`. */
    method SendTerminalProfile() returns (r: Result<Reply>)
      modifies link
      ensures link.Did(TerminalProfileRun(old(link.script)), r, old(link.log), old(link.script))
    {
      ghost var script0 := link.script;
      var x := link.SendApdu(TerminalProfile);
      if x.Err? || x.value.sw1 != 0x91 {
        return x;
      }
      var f := link.SendApdu(Fetch(x.value.sw2));
      if f.Err? {
        return Err(f.error);
      }
      assert script0[1..][1..] == script0[2..];
      r := link.SendApdu(TerminalResponse);
    }

    /** `open_logical_channel`: MANAGE CHANNEL open; the card's one data byte is the channel. */
    method OpenLogicalChannel() returns (r: Result<Byte>)
      modifies link
      ensures link.Did(OpenRun(old(link.script)), r, old(link.log), old(link.script))
    {
      var x := link.SendApdu(ManageChannelOpen);
      if x.Err? {
        return Err(x.error);
      }
      if x.value.sw1 != 0x90 {
        return Err(UnexpectedStatus);
      }
      if |x.value.data| != 1 {
        return Err(MalformedResponse);
      }
      r := Ok(x.value.data[0]);
    }

    /** `close_logical_channel(channel)`: MANAGE CHANNEL close. */
    method CloseLogicalChannel(channel: Byte) returns (r: Result<()>)
      modifies link
      ensures link.Did(CloseRun(channel, old(link.script)), r, old(link.log), old(link.script))
    {
      var x := link.SendApdu(ManageChannelClose(channel));
      if x.Err? {
        return Err(x.error);
      }
      if x.value.sw1 != 0x90 {
        return Err(UnexpectedStatus);
      }
      r := Ok(());
    }

    /** `select_application(channel, aid)`: SELECT by AID with the channel number as class byte. */
    method SelectApplication(channel: Byte, aid: Bytes) returns (r: Result<Bytes>)
      requires |aid| < 256
      modifies link
      ensures link.Did(SelectRun(channel, aid, old(link.script)), r, old(link.log), old(link.script))
    {
      var x := SendApduRaw(SelectByAid(channel, aid));
      if x.Err? {
        return Err(x.error);
      }
      if x.value.sw1 != 0x90 {
        return Err(UnexpectedStatus);
      }
      r := Ok(x.value.data);
    }

    /** `select_application_with_check_response`: SELECT, then walk the TLVs inside the answer's
        outer TLV until its value is used up. */
    method SelectApplicationWithCheckResponse(channel: Byte, aid: Bytes) returns (r: Result<()>)
      requires |aid| < 256
      modifies link
      ensures link.Did(SelectCheckedRun(channel, aid, old(link.script)), r, old(link.log), old(link.script))
    {
      var response := SelectApplication(channel, aid);
      if response.Err? {
        return Err(response.error);
      }
      if |response.value| < 2 {
        return Err(MalformedResponse);
      }
      var outer := ExtractValue(response.value);
      if outer.Err? {
        return Err(outer.error);
      }
      var target := outer.value.0;
      ghost var log1, script1 := link.log, link.script;
      while |target| > 0
        invariant link.log == log1 && link.script == script1
        invariant Tlv.WalkTlvs(outer.value.0) == Tlv.WalkTlvs(target)
        decreases |target|
      {
        var inner := ExtractValue(target);
        if inner.Err? {
          return Err(inner.error);
        }
        target := inner.value.1;
      }
      r := Ok(());
    }

    /** `send_apdu_on_channel(channel, apdu)`: rewrites the class byte for the channel and sends
        the command through `SendApduRaw`. */
    method SendApduOnChannel(channel: nat, apdu: Bytes) returns (r: Result<Reply>)
      modifies link
      ensures link.Did(OnChannelRun(channel, apdu, old(link.script)), r, old(link.log), old(link.script))
    {
      if apdu == [] {
        return Err(ApduTooShort);
      }
      var cla := ApplyChannelAsWritten(apdu[0], channel);
      if cla.Err? {
        return Err(cla.error);
      }
      r := SendApduRaw([cla.value] + apdu[1..]);
    }

    /** `send_apdu(aid, apdu)`: open a channel, select the application on it, send the command on
        it and close it again. */
    method SendApdu(aid: Bytes, apdu: Bytes) returns (r: Result<Reply>)
      requires |aid| < 256
      modifies link
      ensures link.Did(SendApduRun(aid, apdu, old(link.script)), r, old(link.log), old(link.script))
    {
      ghost var script0, log0 := link.script, link.log;
      SendApduStages(aid, apdu, script0);
      var channel := OpenLogicalChannel();
      ghost var o := OpenRun(script0);
      if channel.Err? {
        return Err(channel.error);
      }
      ghost var log1, script1 := link.log, link.script;
      var selected := SelectApplication(channel.value, aid);
      ghost var os := Then(o, SelectRun(channel.value, aid, script1));
      link.DidThen(o, SelectRun(channel.value, aid, script1), selected, log0, script0, log1, script1);
      if selected.Err? {
        return Err(selected.error);
      }
      ghost var log2, script2 := link.log, link.script;
      var response := SendApduOnChannel(channel.value as nat, apdu);
      ghost var ost := Then(os, OnChannelRun(channel.value as nat, apdu, script2));
      link.DidThen(os, OnChannelRun(channel.value as nat, apdu, script2), response, log0, script0, log2, script2);
      if response.Err? {
        return Err(response.error);
      }
      ghost var log3, script3 := link.log, link.script;
      var closed := CloseLogicalChannel(channel.value);
      link.DidThen(ost, CloseRun(channel.value, script3), closed, log0, script0, log3, script3);
      if closed.Err? {
        return Err(closed.error);
      }
      r := response;
    }
  }
}
