/** Bytes, status words, errors and the record of an exchange sequence shared by the session layer. */
module Protocol {

  type Byte = bv8
  type Bytes = seq<Byte>

  /** The kinds of failure the command interface reports. */
  datatype Error =
    | ApduTooShort       // command shorter than CLA INS P1 P2
    | InvalidChannel     // logical channel number of 20 or more
    | UnexpectedStatus   // a control command did not answer 90xx
    | MalformedResponse  // response data of the wrong size
    | MalformedTlv       // a TLV header runs past the end of its input
    | NoReply            // the transport had no answer for a command

  datatype Option<+T> = None | Some(value: T)

  datatype Result<+T> = Ok(value: T) | Err(error: Error)

  /** A response APDU: its data field and the status word SW1 SW2. */
  datatype Reply = Reply(data: Bytes, sw1: Byte, sw2: Byte)

  /** What a sequence of exchanges did against a card whose answers are given in advance:
      the commands sent, in order, how many answers were consumed, and the outcome. */
  datatype Run<+T> = Run(sent: seq<Bytes>, used: nat, result: Result<T>)

  /** SW1 values asking the terminal to fetch more data with GET RESPONSE. */
  predicate MoreData(sw1: Byte) { sw1 == 0x61 || sw1 == 0x9F }

  /** One exchange of `cmd` with a card that answers from `script`. */
  function Exchange(cmd: Bytes, script: seq<Reply>): (r: Run<Reply>)
    ensures r.sent == [cmd]
    ensures r.result.Ok? <==> script != []
    ensures r.result.Ok? ==> r.used == 1 && r.result.value == script[0]
    ensures r.result.Err? ==> r.used == 0 && r.result.error == NoReply
  {
    if script == [] then Run([cmd], 0, Err(NoReply)) else Run([cmd], 1, Ok(script[0]))
  }

  /** `run` preceded by one exchange of `cmd` that consumed one answer. */
  function Prepend<T>(cmd: Bytes, run: Run<T>): Run<T>
  {
    Run([cmd] + run.sent, run.used + 1, run.result)
  }

  /** The data fields of `replies`, concatenated in order. */
  function Flatten(replies: seq<Reply>): (d: Bytes)
  {
    if replies == [] then [] else replies[0].data + Flatten(replies[1..])
  }

  /** `run` followed by `next`, which ran on the answers `run` left. */
  function Then<A, B>(run: Run<A>, next: Run<B>): Run<B>
  {
    Run(run.sent + next.sent, run.used + next.used, next.result)
  }

  function Min(a: nat, b: nat): nat { if a <= b then a else b }
}
