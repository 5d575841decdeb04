/** The channel session operations of the command interface, as what each one sends and returns
    against a card whose answers are known in advance: MANAGE CHANNEL open and close
    (ISO/IEC 7816-4:2005 section 7.1.2), SELECT by AID (section 7.1.1), a command routed to a
    logical channel, the open-select-transmit-close sequence, and the terminal profile download. */
module Session {
  import opened Protocol
  import opened ClassByte
  import opened Chaining
  import Tlv

  const ManageChannelOpen: Bytes := [0x00, 0x70, 0x00, 0x00, 0x01]

  function ManageChannelClose(channel: Byte): Bytes
  {
    [0x00, 0x70, 0x80, channel]
  }

  /** SELECT by AID with `cla` as the class byte, Lc the AID's length and Le 00. */
  function SelectByAid(cla: Byte, aid: Bytes): Bytes
    requires |aid| < 256
  {
    [cla, 0xA4, 0x04, 0x00, |aid| as bv8] + aid + [0x00]
  }

  const TerminalProfile: Bytes :=
    [0xA0, 0x10, 0x00, 0x00, 0x11, 0xFF, 0xFF, 0x00, 0x00, 0x00, 0x00, 0x00,
     0x00, 0x00, 0x00, 0x00, 0x00, 0x00, 0x00, 0x00, 0x00, 0x00]

  function Fetch(le: Byte): Bytes
  {
    [0xA0, 0x12, 0x00, 0x00, le]
  }

  const TerminalResponse: Bytes :=
    [0xA0, 0x14, 0x00, 0x00, 0x0C, 0x81, 0x03, 0x01, 0x03, 0x00, 0x02, 0x02, 0x82, 0x81, 0x03, 0x01, 0x00]

  /** `run`, whose failure ends the operation. */
  function Stop<A, B>(run: Run<A>): Run<B>
    requires run.result.Err?
  {
    Run(run.sent, run.used, Err(run.result.error))
  }

  /** `open_logical_channel`: the channel number is the single data byte of a 90xx answer. */
  function OpenRun(script: seq<Reply>): (r: Run<Byte>)
    ensures r.sent == [ManageChannelOpen] && r.used <= |script|
    ensures r.result.Ok? <==> script != [] && script[0].sw1 == 0x90 && |script[0].data| == 1
    ensures r.result.Ok? ==> r.used == 1 && r.result.value == script[0].data[0]
    ensures r.result == Err(UnexpectedStatus) <==> script != [] && script[0].sw1 != 0x90
    ensures r.result == Err(MalformedResponse) <==>
      script != [] && script[0].sw1 == 0x90 && |script[0].data| != 1
  {
    var x := Exchange(ManageChannelOpen, script);
    if x.result.Err? then Stop(x)
    else if x.result.value.sw1 != 0x90 then Run(x.sent, x.used, Err(UnexpectedStatus))
    else if |x.result.value.data| != 1 then Run(x.sent, x.used, Err(MalformedResponse))
    else Run(x.sent, x.used, Ok(x.result.value.data[0]))
  }

  /** `close_logical_channel(channel)`: succeeds on a 90xx answer. */
  function CloseRun(channel: Byte, script: seq<Reply>): (r: Run<()>)
    ensures r.sent == [ManageChannelClose(channel)] && r.used <= |script|
    ensures r.result.Ok? <==> script != [] && script[0].sw1 == 0x90
    ensures r.result.Err? && script != [] ==> r.result.error == UnexpectedStatus && r.used == 1
  {
    var x := Exchange(ManageChannelClose(channel), script);
    if x.result.Err? then Stop(x)
    else if x.result.value.sw1 != 0x90 then Run(x.sent, x.used, Err(UnexpectedStatus))
    else Run(x.sent, x.used, Ok(()))
  }

  /** `select_application(channel, aid)`: SELECT through the chaining layer, with the channel number
      itself as the class byte; the answer's data is returned when the final SW1 is 90. */
  function SelectRun(channel: Byte, aid: Bytes, script: seq<Reply>): (r: Run<Bytes>)
    requires |aid| < 256
    ensures r.used <= |script|
    ensures r.sent == RawRun(SelectByAid(channel, aid), script).sent
    ensures r.sent[0] == SelectByAid(channel, aid)
    ensures r.result.Ok? ==> |r.sent| == r.used
    ensures var x := RawRun(SelectByAid(channel, aid), script).result;
      && (r.result.Ok? <==> x.Ok? && x.value.sw1 == 0x90)
      && (r.result.Ok? ==> r.result.value == x.value.data)
      && (x.Ok? && x.value.sw1 != 0x90 ==> r.result == Err(UnexpectedStatus))
  {
    var x := RawRun(SelectByAid(channel, aid), script);
    if x.result.Err? then Stop(x)
    else if x.result.value.sw1 != 0x90 then Run(x.sent, x.used, Err(UnexpectedStatus))
    else Run(x.sent, x.used, Ok(x.result.value.data))
  }

  /** `select_application_with_check_response`: the SELECT answer must hold at least two bytes and
      be a TLV whose value is a sequence of TLVs, walked one header at a time. */
  function SelectCheckedRun(channel: Byte, aid: Bytes, script: seq<Reply>): (r: Run<()>)
    requires |aid| < 256
    ensures r.used <= |script|
    ensures r.sent == SelectRun(channel, aid, script).sent
    ensures r.result.Ok? <==>
      var x := SelectRun(channel, aid, script).result;
      && x.Ok? && |x.value| >= 2 && Tlv.Extract(x.value).Ok?
      && Tlv.WalkTlvs(Tlv.Extract(x.value).value.0)
  {
    var x := SelectRun(channel, aid, script);
    if x.result.Err? then Stop(x)
    else if |x.result.value| < 2 then Run(x.sent, x.used, Err(MalformedResponse))
    else match Tlv.Extract(x.result.value)
      case Err(e) => Run(x.sent, x.used, Err(e))
      case Ok((target, _)) => Run(x.sent, x.used, if Tlv.WalkTlvs(target) then Ok(()) else Err(MalformedTlv))
  }

  /** `send_apdu_on_channel(channel, apdu)`: the command with its CLA rewritten for the channel,
      through the chaining layer. */
  function OnChannelRun(channel: nat, apdu: Bytes, script: seq<Reply>): (r: Run<Reply>)
    ensures r.used <= |script|
    ensures apdu == [] || channel >= 20 ==> r.sent == [] && r.result.Err?
    ensures apdu != [] && channel >= 20 ==> r.result.error == InvalidChannel
    ensures r.sent != [] ==> r.sent[0] == OnChannel(apdu, channel).value
    ensures r.result.Ok? ==> |apdu| >= 4 && channel < 20 && |r.sent| == r.used
  {
    if apdu == [] then Run([], 0, Err(ApduTooShort))
    else match OnChannel(apdu, channel)
      case Err(e) => Run([], 0, Err(e))
      case Ok(cmd) => RawRun(cmd, script)
  }

  /** `send_apdu(aid, apdu)`: open a channel, select the application on it, send the command on
      it, close it; the first failing step ends the sequence. */
  function SendApduRun(aid: Bytes, apdu: Bytes, script: seq<Reply>): (r: Run<Reply>)
    requires |aid| < 256
    ensures r.used <= |script|
  {
    var o := OpenRun(script);
    if o.result.Err? then Stop(o) else
    var channel := o.result.value;
    var rest1 := script[o.used..];
    var s := SelectRun(channel, aid, rest1);
    if s.result.Err? then Stop(Then(o, s)) else
    var rest2 := rest1[s.used..];
    var t := OnChannelRun(channel as nat, apdu, rest2);
    if t.result.Err? then Stop(Then(Then(o, s), t)) else
    var rest3 := rest2[t.used..];
    var c := CloseRun(channel, rest3);
    if c.result.Err? then Stop(Then(Then(Then(o, s), t), c))
    else Run(o.sent + s.sent + t.sent + c.sent, o.used + s.used + t.used + c.used, t.result)
  }

  /** `send_terminal_profile`: TERMINAL PROFILE; after a 91xx answer, FETCH the proactive command
      and answer it with a fixed TERMINAL RESPONSE, whose answer is returned. */
  function TerminalProfileRun(script: seq<Reply>): (r: Run<Reply>)
    ensures r.used <= |script| && r.sent != [] && r.sent[0] == TerminalProfile
    ensures script != [] && script[0].sw1 != 0x91 ==> r == Run([TerminalProfile], 1, Ok(script[0]))
    ensures |script| >= 3 && script[0].sw1 == 0x91 ==>
      r == Run([TerminalProfile, Fetch(script[0].sw2), TerminalResponse], 3, Ok(script[2]))
    ensures r.result.Err? ==> r.result.error == NoReply && r.used == |script| < 3
  {
    var x := Exchange(TerminalProfile, script);
    if x.result.Err? || x.result.value.sw1 != 0x91 then x
    else
      var f := Exchange(Fetch(x.result.value.sw2), script[1..]);
      if f.result.Err? then Stop(Then(x, f))
      else Then(Then(x, f), Exchange(TerminalResponse, script[2..]))
  }

  /** `send_apdu` stage by stage: where it stops, and what it has done by then. */
  lemma SendApduStages(aid: Bytes, apdu: Bytes, script: seq<Reply>)
    requires |aid| < 256
    ensures var o := OpenRun(script);
      o.result.Err? ==> SendApduRun(aid, apdu, script) == Stop(o)
    ensures var o := OpenRun(script);
      o.result.Ok? ==>
        var s := SelectRun(o.result.value, aid, script[o.used..]);
        s.result.Err? ==> SendApduRun(aid, apdu, script) == Stop(Then(o, s))
    ensures var o := OpenRun(script);
      o.result.Ok? ==>
        var s := SelectRun(o.result.value, aid, script[o.used..]);
        var os := Then(o, s);
        s.result.Ok? ==>
          var t := OnChannelRun(o.result.value as nat, apdu, script[os.used..]);
          t.result.Err? ==> SendApduRun(aid, apdu, script) == Stop(Then(os, t))
    ensures var o := OpenRun(script);
      o.result.Ok? ==>
        var s := SelectRun(o.result.value, aid, script[o.used..]);
        var os := Then(o, s);
        s.result.Ok? ==>
          var t := OnChannelRun(o.result.value as nat, apdu, script[os.used..]);
          var ost := Then(os, t);
          t.result.Ok? ==>
            var c := CloseRun(o.result.value, script[ost.used..]);
            && (c.result.Err? ==> SendApduRun(aid, apdu, script) == Stop(Then(ost, c)))
            && (c.result.Ok? ==> SendApduRun(aid, apdu, script) == Run(Then(ost, c).sent, Then(ost, c).used, t.result))
  {
    var o := OpenRun(script);
    if o.result.Ok? {
      var s := SelectRun(o.result.value, aid, script[o.used..]);
      var os := Then(o, s);
      assert script[o.used..][s.used..] == script[os.used..];
      if s.result.Ok? {
        var t := OnChannelRun(o.result.value as nat, apdu, script[os.used..]);
        var ost := Then(os, t);
        assert script[os.used..][t.used..] == script[ost.used..];
      }
    }
  }

  // ---- Properties of the session operations ----

  /** A successful `send_apdu` sent, in this order: MANAGE CHANNEL open, SELECT on the channel the
      card gave (its number as the class byte), the caller's command routed to that channel and
      any GET RESPONSE it needed, then MANAGE CHANNEL close of the same channel; every command got
      an answer, and the result is the routed command's. */
  lemma SendApduSteps(aid: Bytes, apdu: Bytes, script: seq<Reply>)
    requires |aid| < 256
    ensures SendApduRun(aid, apdu, script).sent[0] == ManageChannelOpen
    ensures var r := SendApduRun(aid, apdu, script);
      r.result.Ok? ==>
        var channel := script[0].data[0];
        var s := SelectRun(channel, aid, script[1..]);
        var t := OnChannelRun(channel as nat, apdu, script[1 + s.used..]);
        && channel < 20 && |apdu| >= 4
        && r.sent == [ManageChannelOpen] + s.sent + t.sent + [ManageChannelClose(channel)]
        && r.sent[1] == SelectByAid(channel, aid)
        && r.sent[1 + |s.sent|] == OnChannel(apdu, channel as nat).value
        && r.sent[|r.sent| - 1] == ManageChannelClose(channel)
        && r.used == |r.sent|
        && r.result == t.result
  {
    var r := SendApduRun(aid, apdu, script);
    if r.result.Ok? {
      var channel := script[0].data[0];
      var s := SelectRun(channel, aid, script[1..]);
      assert s.result.Ok?;
      assert script[1..][s.used..] == script[1 + s.used..];
      var t := OnChannelRun(channel as nat, apdu, script[1 + s.used..]);
      assert t.result.Ok?;
      var c := CloseRun(channel, script[1 + s.used..][t.used..]);
      assert c.result.Ok?;
      assert r == Run([ManageChannelOpen] + s.sent + t.sent + c.sent, 1 + s.used + t.used + c.used, t.result);
      assert r.sent[1] == s.sent[0];
      assert r.sent[1 + |s.sent|] == t.sent[0];
    }
  }

  /** When SELECT fails, `send_apdu` stops there: the channel it opened is never closed. */
  lemma SelectFailureLeavesChannelOpen(aid: Bytes, apdu: Bytes, script: seq<Reply>)
    requires |aid| < 256 && script != [] && script[0].sw1 == 0x90 && |script[0].data| == 1
    requires SelectRun(script[0].data[0], aid, script[1..]).result.Err?
    ensures var r := SendApduRun(aid, apdu, script);
      && r.result == Err(SelectRun(script[0].data[0], aid, script[1..]).result.error)
      && ManageChannelClose(script[0].data[0]) !in r.sent
  {
    var channel := script[0].data[0];
    var s := SelectRun(channel, aid, script[1..]);
    var r := SendApduRun(aid, apdu, script);
    assert r.sent == [ManageChannelOpen] + s.sent;
    if |SelectByAid(channel, aid)| >= 4 {
      RawTrace(SelectByAid(channel, aid), script[1..]);
    }
    forall i | 0 <= i < |r.sent| ensures r.sent[i] != ManageChannelClose(channel) {
      if i > 0 {
        assert r.sent[i] == s.sent[i - 1];
        if i - 1 > Baseline(script[1..]) {
          assert script[1..][i - 2] == script[i - 1];
        }
        assert |r.sent[i]| >= 5;
      }
    }
  }

  /** A card that answers every command with 9000: `send_apdu` makes exactly one open, select,
      transmit and close and returns the transmit answer's data, whatever its length. */
  lemma SendApduOnPlainCard(aid: Bytes, apdu: Bytes, channel: Byte, selected: Bytes, data: Bytes, closed: Bytes)
    requires |aid| < 256 && |apdu| >= 4 && channel < 20
    ensures var script := [Reply([channel], 0x90, 0x00), Reply(selected, 0x90, 0x00),
                           Reply(data, 0x90, 0x00), Reply(closed, 0x90, 0x00)];
      SendApduRun(aid, apdu, script) ==
        Run([ManageChannelOpen, SelectByAid(channel, aid), OnChannel(apdu, channel as nat).value,
             ManageChannelClose(channel)], 4, Ok(Reply(data, 0x90, 0x00)))
  {
    var script := [Reply([channel], 0x90, 0x00), Reply(selected, 0x90, 0x00),
                   Reply(data, 0x90, 0x00), Reply(closed, 0x90, 0x00)];
    assert script[1..][1..] == script[2..];
    assert script[2..][1..] == script[3..];
  }

  /** The same card delivering the transmit answer in two parts (61xx, then the rest): one GET
      RESPONSE on the routed class byte fetches it and the output is both parts in order. */
  lemma SendApduWithGetResponse(aid: Bytes, apdu: Bytes, channel: Byte, first: Bytes, le: Byte, rest: Bytes)
    requires |aid| < 256 && |apdu| >= 4 && channel < 20
    ensures var cmd := OnChannel(apdu, channel as nat).value;
      var script := [Reply([channel], 0x90, 0x00), Reply([], 0x90, 0x00),
                     Reply(first, 0x61, le), Reply(rest, 0x90, 0x00), Reply([], 0x90, 0x00)];
      SendApduRun(aid, apdu, script) ==
        Run([ManageChannelOpen] + [SelectByAid(channel, aid)] + [cmd, GetResponse(cmd[0], le)]
            + [ManageChannelClose(channel)], 5, Ok(Reply(first + rest, 0x90, 0x00)))
  {
    var cmd := OnChannel(apdu, channel as nat).value;
    var script := [Reply([channel], 0x90, 0x00), Reply([], 0x90, 0x00),
                   Reply(first, 0x61, le), Reply(rest, 0x90, 0x00), Reply([], 0x90, 0x00)];
    assert script[1..] == [Reply([], 0x90, 0x00)] + script[2..];
    SelectPlain(channel, aid, [], 0x00, script[2..]);
    assert script[2..] == [Reply(first, 0x61, le), Reply(rest, 0x90, 0x00)] + script[4..];
    TransmitFetchOnce(channel, apdu, first, le, rest, script[4..]);
    SendApduAllOk(aid, apdu, script, channel, Run([SelectByAid(channel, aid)], 1, Ok([])),
      Run([cmd, GetResponse(cmd[0], le)], 2, Ok(Reply(first + rest, 0x90, 0x00))),
      Run([ManageChannelClose(channel)], 1, Ok(())));
  }

  /** The routed command answered 61xx then 90xx: one GET RESPONSE on the routed class byte. */
  lemma TransmitFetchOnce(channel: Byte, apdu: Bytes, first: Bytes, le: Byte, rest: Bytes, more: seq<Reply>)
    requires |apdu| >= 4 && channel < 20
    ensures var cmd := OnChannel(apdu, channel as nat).value;
      OnChannelRun(channel as nat, apdu, [Reply(first, 0x61, le), Reply(rest, 0x90, 0x00)] + more) ==
        Run([cmd, GetResponse(cmd[0], le)], 2, Ok(Reply(first + rest, 0x90, 0x00)))
  {
    FetchOnce(OnChannel(apdu, channel as nat).value, first, le, rest, more);
  }

  /** A SELECT answered 90xx at once: one command, one answer, its data returned. */
  lemma SelectPlain(channel: Byte, aid: Bytes, data: Bytes, sw2: Byte, more: seq<Reply>)
    requires |aid| < 256
    ensures SelectRun(channel, aid, [Reply(data, 0x90, sw2)] + more) ==
      Run([SelectByAid(channel, aid)], 1, Ok(data))
  {
    var script := [Reply(data, 0x90, sw2)] + more;
    var sel := SelectByAid(channel, aid);
    assert ChainRun(sel[0], script[0], data, script[1..]) == Run([], 0, Ok(Reply(data, 0x90, sw2)));
  }

  /** `send_apdu` when every stage succeeds: the four stages' commands in order, every answer
      they consumed, and the routed command's result. */
  lemma SendApduAllOk(aid: Bytes, apdu: Bytes, script: seq<Reply>, channel: Byte,
                      s: Run<Bytes>, t: Run<Reply>, c: Run<()>)
    requires |aid| < 256 && script != [] && script[0].sw1 == 0x90 && script[0].data == [channel]
    requires s == SelectRun(channel, aid, script[1..]) && s.result.Ok?
    requires t == OnChannelRun(channel as nat, apdu, script[1..][s.used..]) && t.result.Ok?
    requires c == CloseRun(channel, script[1..][s.used..][t.used..]) && c.result.Ok?
    ensures SendApduRun(aid, apdu, script) ==
      Run([ManageChannelOpen] + s.sent + t.sent + c.sent, 1 + s.used + t.used + c.used, t.result)
  {
    assert OpenRun(script) == Run([ManageChannelOpen], 1, Ok(channel));
  }

  /** A "more data" answer followed by a final one: one GET RESPONSE, and both data fields. */
  lemma FetchOnce(cmd: Bytes, first: Bytes, le: Byte, rest: Bytes, more: seq<Reply>)
    requires |cmd| >= 4
    ensures RawRun(cmd, [Reply(first, 0x61, le), Reply(rest, 0x90, 0x00)] + more) ==
      Run([cmd, GetResponse(cmd[0], le)], 2, Ok(Reply(first + rest, 0x90, 0x00)))
  {
    var script := [Reply(first, 0x61, le), Reply(rest, 0x90, 0x00)] + more;
    assert script[1..][1..] == more;
    assert ChainRun(cmd[0], script[1], first + rest, more) == Run([], 0, Ok(Reply(first + rest, 0x90, 0x00)));
  }

  /** The command `send_apdu_on_channel` sends is the caller's with only the class byte changed,
      and that byte addresses the requested channel. */
  lemma OnChannelRoutes(channel: nat, apdu: Bytes, script: seq<Reply>)
    requires channel < 20 && |apdu| >= 4
    ensures var r := OnChannelRun(channel, apdu, script);
      && |r.sent[0]| == |apdu| && r.sent[0][1..] == apdu[1..]
      && ChannelOf(r.sent[0][0]) == channel
  {
    RawTrace(OnChannel(apdu, channel).value, script);
  }

  /** The first no-data command of the transmit scenario, 00 06 00 00, routed to channel 4 goes out
      with class byte 60: bit 6 set because the incoming class announces no secure messaging. */
  lemma PlainCommandOnChannelFour(script: seq<Reply>)
    ensures OnChannelRun(4, [0x00, 0x06, 0x00, 0x00], script).sent[0] == [0x60, 0x06, 0x00, 0x00]
  {
    RawTrace([0x60, 0x06, 0x00, 0x00], script);
  }

  /** A SELECT answered 90xx with a TLV whose value is a run of well-formed TLVs passes the check
      of `select_application_with_check_response`. */
  lemma SelectCheckedAcceptsTemplate(channel: Byte, aid: Bytes, fci: Tlv.Node, items: seq<Tlv.Node>,
                                     sw2: Byte, more: seq<Reply>)
    requires |aid| < 256 && Tlv.ValidNode(fci)
    requires forall i :: 0 <= i < |items| ==> Tlv.ValidNode(items[i])
    requires fci.value == Tlv.EncodeAll(items)
    ensures SelectCheckedRun(channel, aid, [Reply(Tlv.Encode(fci), 0x90, sw2)] + more).result == Ok(())
  {
    var script := [Reply(Tlv.Encode(fci), 0x90, sw2)] + more;
    var fcp := Tlv.Encode(fci);
    var sel := SelectByAid(channel, aid);
    assert ChainRun(sel[0], script[0], fcp, script[1..]) == Run([], 0, Ok(Reply(fcp, 0x90, sw2)));
    assert RawRun(sel, script) == Run([sel], 1, Ok(Reply(fcp, 0x90, sw2)));
    assert SelectRun(channel, aid, script).result == Ok(fcp);
    Tlv.ExtractEncode(fci, []);
    assert fcp + [] == fcp;
    assert Tlv.Extract(fcp) == Ok((fci.value, []));
    assert |fcp| >= 2;
    Tlv.WalkEncodeAll(items);
  }
}
