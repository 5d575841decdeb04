/** BER-TLV headers as read by `extract_value`: identifier octets (ITU-T X.690 section 8.1.2),
    then length octets in short or long form (section 8.1.3). */
module Tlv {
  import opened Protocol

  /** Index just past the first octet at or after `i` whose bit 8 is clear, if there is one. */
  function ContinuationEnd(s: Bytes, i: nat): (r: Option<nat>)
    ensures r.Some? ==> i < r.value <= |s| && s[r.value - 1] & 0x80 == 0
    ensures r.Some? ==> forall j :: i <= j < r.value - 1 ==> s[j] & 0x80 != 0
    ensures r.None? ==> forall j :: i <= j < |s| ==> s[j] & 0x80 != 0
    decreases |s| - i
  {
    if i >= |s| then None
    else if s[i] & 0x80 != 0x80 then Some(i + 1)
    else ContinuationEnd(s, i + 1)
  }

  /** Number of identifier octets at the head of `s`: one, unless bits 1-5 of the first are all 1,
      in which case continuation octets follow up to and including the first with bit 8 clear. */
  function TagSize(s: Bytes): (r: Option<nat>)
    ensures r.Some? ==> 1 <= r.value <= |s|
    ensures r.Some? && s[0] & 0x1F != 0x1F ==> r.value == 1
  {
    if s == [] then None
    else if s[0] & 0x1F != 0x1F then Some(1)
    else ContinuationEnd(s, 1)
  }

  /** The unsigned big-endian number the octets of `s` spell. */
  function BigEndian(s: Bytes): nat
  {
    if s == [] then 0 else BigEndian(s[..|s| - 1]) * 256 + s[|s| - 1] as nat
  }

  /** Reading one more length octet. */
  lemma BigEndianStep(s: Bytes, i: nat, j: nat)
    requires i <= j < |s|
    ensures BigEndian(s[i..j + 1]) == BigEndian(s[i..j]) * 256 + s[j] as nat
  {
    assert s[i..j + 1][..j - i] == s[i..j];
  }

  /** Size of the whole header (identifier and length octets) and the length it announces. */
  function Header(s: Bytes): (r: Option<(nat, nat)>)
    ensures r.Some? ==> 2 <= r.value.0 <= |s|
  {
    match TagSize(s)
    case None => None
    case Some(t) =>
      if t >= |s| then None
      else if s[t] as nat <= 127 then Some((t + 1, s[t] as nat))
      else
        var n := s[t] as nat - 128;
        if t + 1 + n > |s| then None
        else Some((t + 1 + n, BigEndian(s[t + 1 .. t + 1 + n])))
  }

  /** One step of the identifier scan. */
  lemma ContinuationStep(s: Bytes, i: nat)
    requires i < |s|
    ensures s[i] & 0x80 != 0x80 ==> ContinuationEnd(s, i) == Some(i + 1)
    ensures s[i] & 0x80 == 0x80 ==> ContinuationEnd(s, i) == ContinuationEnd(s, i + 1)
  {
  }

  lemma HeaderMissingTag(s: Bytes)
    requires TagSize(s).None?
    ensures Header(s).None?
  {
  }

  lemma HeaderAfterTag(s: Bytes, t: nat)
    requires TagSize(s) == Some(t)
    ensures t == |s| ==> Header(s).None?
    ensures t < |s| && s[t] as nat <= 127 ==> Header(s) == Some((t + 1, s[t] as nat))
    ensures t < |s| && s[t] as nat > 127 && t + 1 + (s[t] as nat - 128) > |s| ==> Header(s).None?
  {
  }

  lemma HeaderLongForm(s: Bytes, t: nat, q: nat, len: nat)
    requires TagSize(s) == Some(t) && t < |s| && s[t] as nat > 127
    requires q == t + 1 + (s[t] as nat - 128) <= |s| && len == BigEndian(s[t + 1..q])
    ensures Header(s) == Some((q, len))
  {
  }

  /** `(value, remainder)` of the TLV at the head of `s`; the value is cut short at the end of `s`. */
  function Extract(s: Bytes): (r: Result<(Bytes, Bytes)>)
    ensures r.Ok? <==> Header(s).Some?
    ensures r.Err? ==> r.error == MalformedTlv
    ensures r.Ok? ==> r.value.0 + r.value.1 == s[Header(s).value.0..]
    ensures r.Ok? ==> |r.value.0| == Min(Header(s).value.1, |s| - Header(s).value.0)
    ensures r.Ok? ==> |r.value.1| + 2 <= |s|
  {
    match Header(s)
    case None => Err(MalformedTlv)
    case Some((h, len)) =>
      var rest := s[h..];
      var k := Min(len, |rest|);
      assert rest[..k] + rest[k..] == rest;
      Ok((rest[..k], rest[k..]))
  }

  lemma ExtractOfHeader(s: Bytes, h: nat, len: nat)
    requires Header(s) == Some((h, len))
    ensures h <= |s| && Extract(s) == Ok((s[h..][..Min(len, |s| - h)], s[h..][Min(len, |s| - h)..]))
  {
  }

  /** True when `s` splits into TLVs one after another, as the repeated extraction sees it. */
  function WalkTlvs(s: Bytes): (r: bool)
    ensures r && s != [] ==> Extract(s).Ok? && |s| >= 2
    decreases |s|
  {
    if s == [] then true
    else match Extract(s)
      case Err(_) => false
      case Ok((_, rest)) => WalkTlvs(rest)
  }

  // ---- Encoding side: the partner the decoder is checked against ----

  /** A well-formed identifier: one octet whose bits 1-5 are not all 1, or such an escape octet
      followed by continuation octets with bit 8 set and a last octet with bit 8 clear. */
  predicate ValidTag(t: Bytes)
  {
    |t| >= 1 &&
    if t[0] & 0x1F != 0x1F then |t| == 1
    else |t| >= 2 && t[|t| - 1] & 0x80 == 0 && forall j :: 1 <= j < |t| - 1 ==> t[j] & 0x80 != 0
  }

  /** Length octets that announce `n`: the short form, one octet below 128 equal to `n`, or the
      long form, an octet 128 + k followed by k octets whose big-endian value is `n`. */
  predicate ValidLength(len: Bytes, n: nat)
  {
    |len| >= 1 &&
    if |len| == 1 then len[0] as nat <= 127 && len[0] as nat == n
    else len[0] as nat == 128 + (|len| - 1) && BigEndian(len[1..]) == n
  }

  /** A TLV to encode: identifier octets, length octets and the value. */
  datatype Node = Node(tag: Bytes, length: Bytes, value: Bytes)

  predicate ValidNode(x: Node)
  {
    ValidTag(x.tag) && ValidLength(x.length, |x.value|)
  }

  function Encode(x: Node): (r: Bytes)
    requires ValidNode(x)
  {
    x.tag + x.length + x.value
  }

  lemma {:induction false} ContinuationEndOfTag(s: Bytes, tag: Bytes, i: nat)
    requires ValidTag(tag) && |tag| >= 2 && tag <= s && 1 <= i < |tag|
    ensures ContinuationEnd(s, i) == Some(|tag|)
    decreases |tag| - i
  {
    if i < |tag| - 1 {
      assert s[i] == tag[i];
      ContinuationEndOfTag(s, tag, i + 1);
    } else {
      assert s[i] == tag[i];
    }
  }

  lemma TagSizeOfTag(tag: Bytes, tail: Bytes)
    requires ValidTag(tag)
    ensures TagSize(tag + tail) == Some(|tag|)
  {
    var s := tag + tail;
    assert s[0] == tag[0];
    if tag[0] & 0x1F == 0x1F {
      ContinuationEndOfTag(s, tag, 1);
    }
  }

  lemma HeaderOfLength(s: Bytes, t: nat, len: Bytes, n: nat)
    requires TagSize(s) == Some(t) && ValidLength(len, n)
    requires t + |len| <= |s| && s[t..t + |len|] == len
    ensures Header(s) == Some((t + |len|, n))
  {
    assert s[t] == len[0];
    HeaderAfterTag(s, t);
    if |len| > 1 {
      assert s[t + 1..t + |len|] == len[1..];
      HeaderLongForm(s, t, t + |len|, n);
    }
  }

  lemma ExtractAfterHeader(s: Bytes, h: nat, value: Bytes, rest: Bytes)
    requires Header(s) == Some((h, |value|)) && h <= |s| && s[h..] == value + rest
    ensures Extract(s) == Ok((value, rest))
  {
    assert (value + rest)[..|value|] == value;
    assert (value + rest)[|value|..] == rest;
  }

  lemma Slices(a: Bytes, b: Bytes, c: Bytes)
    ensures (a + (b + c))[|a|..|a| + |b|] == b && (a + (b + c))[|a| + |b|..] == c
  {
  }

  /** Decoding an encoded TLV gives back its value and whatever followed it. */
  lemma {:induction false} ExtractEncode(x: Node, rest: Bytes)
    requires ValidNode(x)
    ensures Extract(Encode(x) + rest) == Ok((x.value, rest))
  {
    var len := x.length;
    var tail := len + (x.value + rest);
    var s := x.tag + tail;
    assert Encode(x) + rest == s;
    var t := |x.tag|;
    TagSizeOfTag(x.tag, tail);
    Slices(x.tag, len, x.value + rest);
    HeaderOfLength(s, t, len, |x.value|);
    ExtractAfterHeader(s, t + |len|, x.value, rest);
  }

  function EncodeAll(xs: seq<Node>): (r: Bytes)
    requires forall i :: 0 <= i < |xs| ==> ValidNode(xs[i])
  {
    if xs == [] then [] else Encode(xs[0]) + EncodeAll(xs[1..])
  }

  /** A concatenation of encoded TLVs passes the walk over a SELECT response's template. */
  lemma {:induction false} WalkEncodeAll(xs: seq<Node>)
    requires forall i :: 0 <= i < |xs| ==> ValidNode(xs[i])
    ensures WalkTlvs(EncodeAll(xs))
  {
    if xs != [] {
      var s := EncodeAll(xs);
      ExtractEncode(xs[0], EncodeAll(xs[1..]));
      assert Encode(xs[0]) + EncodeAll(xs[1..]) == s;
      WalkEncodeAll(xs[1..]);
    }
  }

  /** For a one-octet tag and a short length L with at least L octets after it, the value is the
      next L octets and the remainder everything after them. */
  lemma ExtractShortForm(tag: Byte, len: Byte, value: Bytes, rest: Bytes)
    requires tag & 0x1F != 0x1F && len as nat <= 127 && len as nat == |value|
    ensures Extract([tag, len] + value + rest) == Ok((value, rest))
  {
    var x := Node([tag], [len], value);
    assert Encode(x) == [tag, len] + value;
    ExtractEncode(x, rest);
  }
}
