/** What `send_apdu_raw` sends and returns against a card whose answers are known in advance:
    a wrong-length answer (SW1 6C) makes it resend once with the corrected Le, and a "more data"
    answer (SW1 61 or 9F) makes it fetch the rest with GET RESPONSE (ISO/IEC 7816-4:2005
    section 7.6.1), appending each data field to the output. */
module Chaining {
  import opened Protocol

  /** GET RESPONSE on the class `cla`, asking for `le` bytes. */
  function GetResponse(cla: Byte, le: Byte): Bytes
  {
    [cla, 0xC0, 0x00, 0x00, le]
  }

  /** The command with its last byte replaced by `le`. */
  function WithLe(apdu: Bytes, le: Byte): (r: Bytes)
    requires apdu != []
  {
    apdu[..|apdu| - 1] + [le]
  }

  /** The GET RESPONSE loop: `last` is the answer just received, `out` the data gathered so far. */
  function ChainRun(cla: Byte, last: Reply, out: Bytes, script: seq<Reply>): (r: Run<Reply>)
    ensures r.used <= |script|
    ensures r.result.Ok? ==> !MoreData(r.result.value.sw1)
    ensures r.result.Err? ==> r.result.error == NoReply
    decreases |script|
  {
    if !MoreData(last.sw1) then Run([], 0, Ok(Reply(out, last.sw1, last.sw2)))
    else if script == [] then Run([GetResponse(cla, last.sw2)], 0, Err(NoReply))
    else Prepend(GetResponse(cla, last.sw2), ChainRun(cla, script[0], out + script[0].data, script[1..]))
  }

  /** Index of the answer whose data opens the output: the first, or the second after a 6C retry. */
  function Baseline(script: seq<Reply>): nat
  {
    if script != [] && script[0].sw1 == 0x6C then 1 else 0
  }

  /** Everything `send_apdu_raw(apdu)` does. */
  function RawRun(apdu: Bytes, script: seq<Reply>): (r: Run<Reply>)
    ensures r.used <= |script|
    ensures r.sent == [] <==> |apdu| < 4
    ensures |apdu| < 4 ==> r.result == Err(ApduTooShort)
    ensures r.sent != [] ==> r.sent[0] == apdu
    ensures r.result.Ok? ==> |r.sent| == r.used
  {
    if |apdu| < 4 then Run([], 0, Err(ApduTooShort))
    else if script == [] then Run([apdu], 0, Err(NoReply))
    else if script[0].sw1 != 0x6C then
      var c := ChainRun(apdu[0], script[0], script[0].data, script[1..]);
      ChainTrace(apdu[0], script[0], script[0].data, script[1..]);
      Prepend(apdu, c)
    else if |script| == 1 then Run([apdu, WithLe(apdu, script[0].sw2)], 1, Err(NoReply))
    else
      var c := ChainRun(apdu[0], script[1], script[1].data, script[2..]);
      ChainTrace(apdu[0], script[1], script[1].data, script[2..]);
      Prepend(apdu, Prepend(WithLe(apdu, script[0].sw2), c))
  }

  /** The GET RESPONSE loop sends one GET RESPONSE per "more data" answer, each asking for the
      count that answer gave; it consumes an answer per command; on success the output is `out`
      followed by every fetched data field in order and the status word is the last answer's,
      which no longer asks for more; it fails only when the answers run out. */
  lemma {:induction false} ChainTrace(cla: Byte, last: Reply, out: Bytes, script: seq<Reply>)
    ensures var c := ChainRun(cla, last, out, script);
      && c.used <= |script| && |c.sent| <= |script| + 1
      && (forall i :: 0 <= i < |c.sent| ==>
            MoreData(([last] + script)[i].sw1) && c.sent[i] == GetResponse(cla, ([last] + script)[i].sw2))
      && (c.result.Ok? ==>
            && |c.sent| == c.used
            && c.result.value.data == out + Flatten(script[..c.used])
            && c.result.value.sw1 == ([last] + script)[c.used].sw1
            && c.result.value.sw2 == ([last] + script)[c.used].sw2
            && !MoreData(c.result.value.sw1))
      && (c.result.Err? ==> c.result.error == NoReply && c.used == |script| && |c.sent| == c.used + 1)
    decreases |script|
  {
    if MoreData(last.sw1) && script != [] {
      var tail := ChainRun(cla, script[0], out + script[0].data, script[1..]);
      ChainTrace(cla, script[0], out + script[0].data, script[1..]);
      var c := ChainRun(cla, last, out, script);
      assert c.sent == [GetResponse(cla, last.sw2)] + tail.sent;
      TraceShift(cla, last, script, tail.sent);
      if c.result.Ok? {
        FlattenShift(script, tail.used);
        assert ([last] + script)[tail.used + 1] == ([script[0]] + script[1..])[tail.used];
      }
    }
  }

  /** The commands of one more loop turn, seen from the longer answer list. */
  lemma TraceShift(cla: Byte, last: Reply, script: seq<Reply>, sent: seq<Bytes>)
    requires script != [] && MoreData(last.sw1) && |sent| <= |script|
    requires forall i :: 0 <= i < |sent| ==>
      MoreData(([script[0]] + script[1..])[i].sw1) && sent[i] == GetResponse(cla, ([script[0]] + script[1..])[i].sw2)
    ensures var all := [GetResponse(cla, last.sw2)] + sent;
      forall i :: 0 <= i < |all| ==>
        MoreData(([last] + script)[i].sw1) && all[i] == GetResponse(cla, ([last] + script)[i].sw2)
  {
    var all := [GetResponse(cla, last.sw2)] + sent;
    forall i | 1 <= i < |all|
      ensures MoreData(([last] + script)[i].sw1) && all[i] == GetResponse(cla, ([last] + script)[i].sw2)
    {
      assert ([last] + script)[i] == ([script[0]] + script[1..])[i - 1];
    }
  }

  /** The data of the first k + 1 answers: the first one's, then those of the next k. */
  lemma FlattenShift(script: seq<Reply>, k: nat)
    requires k < |script|
    ensures Flatten(script[..k + 1]) == script[0].data + Flatten(script[1..][..k])
  {
    assert script[..k + 1][1..] == script[1..][..k];
  }

  /** `send_apdu_raw` sends the command first; after a 6C answer it resends it once with the Le
      the card gave and drops that first answer's data; every later command is GET RESPONSE on
      the command's own CLA asking for the count the previous "more data" answer gave. On success
      the output is the data of every answer from the baseline on, in order, and the status word
      is the last answer's, which asks for no more data; it fails only when the answers run out. */
  lemma RawTrace(apdu: Bytes, script: seq<Reply>)
    requires |apdu| >= 4
    ensures RawRun(apdu, script).sent[0] == apdu
    ensures Baseline(script) == 1 ==>
      |RawRun(apdu, script).sent| >= 2 && RawRun(apdu, script).sent[1] == WithLe(apdu, script[0].sw2)
    ensures Fetched(apdu[0], script, Baseline(script), RawRun(apdu, script))
  {
    var b := Baseline(script);
    if script != [] && (b == 0 || |script| > 1) {
      var c := ChainRun(apdu[0], script[b], script[b].data, script[b + 1..]);
      var pre := if b == 0 then [apdu] else [apdu, WithLe(apdu, script[0].sw2)];
      assert RawRun(apdu, script) == Run(pre + c.sent, b + 1 + c.used, c.result);
      LiftTrace(apdu[0], script, b, pre);
      assert (pre + c.sent)[0] == apdu;
      assert b == 1 ==> (pre + c.sent)[1] == WithLe(apdu, script[0].sw2);
    }
  }

  /** From answer `b` on, command i is GET RESPONSE asking for the count answer i - 1 gave, which
      asked for more data; on success every command got its answer, the output is the data of
      answers b onwards in order and the status word is the last answer's, which asks for no more;
      failure means the answers ran out with one command unanswered. */
  ghost predicate Fetched(cla: Byte, script: seq<Reply>, b: nat, r: Run<Reply>)
  {
    && b < |script| + 1 && r.used <= |script|
    && Fetches(cla, script, b, r.sent)
    && (r.result.Ok? ==>
          && |r.sent| == r.used && b < r.used
          && r.result.value.data == Flatten(script[b..r.used])
          && r.result.value.sw1 == script[r.used - 1].sw1
          && r.result.value.sw2 == script[r.used - 1].sw2
          && !MoreData(r.result.value.sw1))
    && (r.result.Err? ==> r.result.error == NoReply && r.used == |script| && |r.sent| == r.used + 1)
  }

  /** Every command after the first b + 1 is GET RESPONSE for the count the answer before it gave,
      and that answer asked for more data. */
  ghost predicate Fetches(cla: Byte, script: seq<Reply>, b: nat, sent: seq<Bytes>)
  {
    && |sent| <= |script| + 1
    && forall j :: b <= j < |script| && j + 1 < |sent| ==>
         MoreData(script[j].sw1) && sent[j + 1] == GetResponse(cla, script[j].sw2)
  }

  /** ChainTrace seen from the whole script, when the loop starts at answer `b` after the
      commands `pre`. */
  lemma LiftTrace(cla: Byte, script: seq<Reply>, b: nat, pre: seq<Bytes>)
    requires b < |script| && |pre| == b + 1
    ensures var c := ChainRun(cla, script[b], script[b].data, script[b + 1..]);
      Fetched(cla, script, b, Run(pre + c.sent, b + 1 + c.used, c.result))
  {
    var c := ChainRun(cla, script[b], script[b].data, script[b + 1..]);
    ChainTrace(cla, script[b], script[b].data, script[b + 1..]);
    assert [script[b]] + script[b + 1..] == script[b..];
    LiftSent(cla, script, b, pre, c.sent);
    if c.result.Ok? {
      var u := b + 1 + c.used;
      assert script[b + 1..][..c.used] == script[b + 1..u];
      assert script[b..u] == [script[b]] + script[b + 1..u];
      assert script[u - 1] == ([script[b]] + script[b + 1..])[c.used];
    }
  }

  /** The GET RESPONSE commands of the loop, renumbered after the `pre` commands. */
  lemma LiftSent(cla: Byte, script: seq<Reply>, b: nat, pre: seq<Bytes>, sent: seq<Bytes>)
    requires b < |script| && |pre| == b + 1 && |sent| <= |script| - b
    requires forall i :: 0 <= i < |sent| ==>
      MoreData(script[b..][i].sw1) && sent[i] == GetResponse(cla, script[b..][i].sw2)
    ensures Fetches(cla, script, b, pre + sent)
  {
    forall j | b <= j < |script| && j + 1 < |pre + sent|
      ensures MoreData(script[j].sw1) && (pre + sent)[j + 1] == GetResponse(cla, script[j].sw2)
    {
      assert (pre + sent)[j + 1] == sent[j - b];
      assert script[b..][j - b] == script[j];
    }
  }

  /** A second wrong-length answer is not retried again: it is returned as it is. */
  lemma SecondWrongLengthReturned(apdu: Bytes, script: seq<Reply>)
    requires |apdu| >= 4 && |script| >= 2 && script[0].sw1 == 0x6C && script[1].sw1 == 0x6C
    ensures RawRun(apdu, script) == Run([apdu, WithLe(apdu, script[0].sw2)], 2, Ok(script[1]))
  {
  }

  /** The commands `pre`, answered by `used` replies, with nothing returned yet. */
  function Sent(pre: seq<Bytes>, used: nat): Run<()>
  {
    Run(pre, used, Ok(()))
  }

  /** How `send_apdu_raw` continues once its first exchange has been answered. */
  lemma RawRunStart(apdu: Bytes, script: seq<Reply>)
    requires |apdu| >= 4 && script != []
    ensures script[0].sw1 != 0x6C ==>
      RawRun(apdu, script) == Then(Sent([apdu], 1), ChainRun(apdu[0], script[0], script[0].data, script[1..]))
    ensures script[0].sw1 == 0x6C && |script| == 1 ==>
      RawRun(apdu, script) == Run([apdu, WithLe(apdu, script[0].sw2)], 1, Err(NoReply))
    ensures script[0].sw1 == 0x6C && |script| > 1 ==>
      RawRun(apdu, script) ==
        Then(Sent([apdu, WithLe(apdu, script[0].sw2)], 2), ChainRun(apdu[0], script[1], script[1].data, script[2..]))
  {
    if script[0].sw1 == 0x6C && |script| > 1 {
      assert [apdu] + ([WithLe(apdu, script[0].sw2)] + ChainRun(apdu[0], script[1], script[1].data, script[2..]).sent)
          == [apdu, WithLe(apdu, script[0].sw2)] + ChainRun(apdu[0], script[1], script[1].data, script[2..]).sent;
    }
  }

  /** One turn of the GET RESPONSE loop, after the commands `pre` and `used` answers. */
  lemma ChainStep(cla: Byte, last: Reply, out: Bytes, script: seq<Reply>, pre: seq<Bytes>, used: nat)
    requires MoreData(last.sw1)
    ensures var c := ChainRun(cla, last, out, script);
      script == [] ==> Run(pre + c.sent, used + c.used, c.result) == Run(pre + [GetResponse(cla, last.sw2)], used, Err(NoReply))
    ensures var c := ChainRun(cla, last, out, script);
      script != [] ==>
        var d := ChainRun(cla, script[0], out + script[0].data, script[1..]);
        Run(pre + c.sent, used + c.used, c.result) ==
          Run((pre + [GetResponse(cla, last.sw2)]) + d.sent, used + 1 + d.used, d.result)
  {
    if script != [] {
      var c := ChainRun(cla, script[0], out + script[0].data, script[1..]);
      assert pre + ([GetResponse(cla, last.sw2)] + c.sent) == (pre + [GetResponse(cla, last.sw2)]) + c.sent;
    }
  }
}
