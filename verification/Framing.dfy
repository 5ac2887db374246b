/** Messages on a stream: each is its encoding behind the length as a variable-length integer. */
module Framing {
  import opened Types
  import opened Streams

  const MAX_MESSAGE := 16 * 1024 * 1024

  /**
   The message codec is library code. The decoder takes some of the bytes it is offered off the stream,
   fewer than all when there is something behind the message. Decoding an empty rest of a stream may
   report the end of the stream rather than a cut message; `emptyIsEnd` covers both.
   */
  datatype Codec<!M> = Codec(encode: M -> seq<Byte>, decode: seq<Byte> -> Option<M>, taken: seq<Byte> -> nat, emptyIsEnd: bool)

  /** Encodings decode, taking all their bytes, are not empty, fit the limit, and no proper prefix of one is taken for a message. */
  ghost predicate Encodes<M>(c: Codec<M>, m: M) {
    && 1 <= |c.encode(m)| <= MAX_MESSAGE
    && c.decode(c.encode(m)) == Some(m) && c.taken(c.encode(m)) >= |c.encode(m)|
    && forall k: nat {:trigger Incomplete(c, m, k)} :: Incomplete(c, m, k)
  }

  ghost predicate Incomplete<M>(c: Codec<M>, m: M, k: nat) {
    k < |c.encode(m)| ==> c.decode(c.encode(m)[..k]) == None
  }

  // ---- lengths ----

  function Pow128(k: nat): nat {
    if k == 0 then 1 else 128 * Pow128(k - 1)
  }

  /** Seven bits a byte, least significant first, the top bit set on all bytes but the last. */
  function Uvarint(x: nat): (s: seq<Byte>)
    ensures |s| >= 1
  {
    if x < 128 then [x] else [128 + x % 128] + Uvarint(x / 128)
  }

  /** The number that seven bits of each byte make up, least significant first. */
  function Weighted(s: seq<Byte>): nat {
    if s == [] then 0 else s[0] % 128 + 128 * Weighted(s[1..])
  }

  /** The bytes of a length make up the number, and the top bit tells exactly the last of them. */
  lemma {:induction false} UvarintFormat(x: nat)
    ensures Weighted(Uvarint(x)) == x
    ensures forall i :: 0 <= i < |Uvarint(x)| ==> (Uvarint(x)[i] < 128 <==> i == |Uvarint(x)| - 1)
    decreases x
  {
    if x >= 128 {
      UvarintFormat(x / 128);
      assert Uvarint(x)[1..] == Uvarint(x / 128);
    }
  }

  /** k bytes are enough exactly for the numbers below 128 to the k. */
  lemma {:induction false} UvarintFits(x: nat, k: nat)
    requires k >= 1
    ensures |Uvarint(x)| <= k <==> x < Pow128(k)
    decreases k
  {
    if k == 1 {
      assert Pow128(1) == 128;
    } else {
      UvarintFits(x / 128, k - 1);
      assert x / 128 < Pow128(k - 1) <==> x < 128 * Pow128(k - 1);
      if x < 128 {
        assert Pow128(k - 1) >= 1 by { Pow128Positive(k - 1); }
      }
    }
  }

  lemma {:induction false} Pow128Positive(k: nat)
    ensures Pow128(k) >= 1
  {
    if k > 0 {
      Pow128Positive(k - 1);
    }
  }

  /** The 8-byte buffer holds the length exactly for lengths below 2^56. */
  lemma LengthBufferSuffices(x: nat)
    ensures |Uvarint(x)| <= 8 <==> x < 0x100_0000_0000_0000
  {
    assert Pow128(4) == 0x1000_0000;
    UvarintFits(x, 8);
  }

  datatype Length = End | Bad | Length(value: nat, used: nat)

  /** What reading a length yields when i bytes of it are already read; ten bytes are the most. */
  function LengthOf(s: seq<Byte>, i: nat): (l: Length)
    requires i <= 10
    ensures l.Length? ==> 1 <= l.used <= |s|
    ensures l.End? <==> s == [] && i == 0
    decreases 10 - i
  {
    if i == 10 then Bad
    else if s == [] then (if i == 0 then End else Bad)
    else if s[0] < 128 then (if i == 9 && s[0] > 1 then Bad else Length(s[0], 1))
    else
      var rest := LengthOf(s[1..], i + 1);
      if rest.Length? then Length(s[0] - 128 + 128 * rest.value, rest.used + 1) else Bad
  }

  lemma {:induction false} LengthReadBack(x: nat, tail: seq<Byte>, i: nat)
    requires i + |Uvarint(x)| <= 9
    ensures LengthOf(Uvarint(x) + tail, i) == Length(x, |Uvarint(x)|)
    decreases x
  {
    if x >= 128 {
      LengthReadBack(x / 128, tail, i + 1);
      assert (Uvarint(x) + tail)[1..] == Uvarint(x / 128) + tail;
    }
  }

  lemma {:induction false} LengthCut(x: nat, k: nat, i: nat)
    requires k < |Uvarint(x)| && i + |Uvarint(x)| <= 9
    ensures LengthOf(Uvarint(x)[..k], i) == if k == 0 && i == 0 then End else Bad
    decreases x
  {
    if k > 0 {
      LengthCut(x / 128, k - 1, i + 1);
      assert Uvarint(x)[..k][1..] == Uvarint(x / 128)[..k - 1];
    }
  }

  lemma ShortLength(x: nat)
    requires x <= MAX_MESSAGE
    ensures |Uvarint(x)| <= 4
  {
    UvarintFits(x, 4);
    assert Pow128(4) == 0x1000_0000;
  }

  // ---- frames ----

  function Frame<M>(c: Codec<M>, m: M): (s: seq<Byte>)
    ensures |s| >= 1
  {
    Uvarint(|c.encode(m)|) + c.encode(m)
  }

  function Parse<M>(c: Codec<M>, s: seq<Byte>): (r: Parsed<M>)
    ensures r.Message? ==> |r.rest| < |s|
  {
    match LengthOf(s, 0)
    case End => Finished
    case Bad => Broken
    case Length(n, used) =>
      if n == 0 || n > MAX_MESSAGE then Broken else ParseBody(c, s[used..], n)
  }

  /** The decoder sees at most n bytes. */
  function ParseBody<M>(c: Codec<M>, s: seq<Byte>, n: nat): (r: Parsed<M>)
    ensures r.Message? ==> |r.rest| <= |s|
  {
    var k := Min(n, |s|);
    if k == 0 && c.emptyIsEnd then Finished else
    var m := c.decode(s[..k]);
    if m.None? then Broken else Message(m.value, s[Min(c.taken(s[..k]), k)..])
  }

  function Min(a: nat, b: nat): nat {
    if a < b then a else b
  }

  lemma FrameRoundTrip<M>(c: Codec<M>, m: M, tail: seq<Byte>)
    requires Encodes(c, m)
    ensures Parse(c, Frame(c, m) + tail) == Message(m, tail)
  {
    var data := c.encode(m);
    var prefix := Uvarint(|data|);
    ShortLength(|data|);
    LengthReadBack(|data|, data + tail, 0);
    var s := Frame(c, m) + tail;
    assert s == prefix + (data + tail);
    var body := s[|prefix|..];
    assert body == data + tail;
    assert body[..|data|] == data && body[|data|..] == tail;
  }

  /** A frame that is cut short yields no message; cut at its start it is the end of the stream. */
  lemma FrameCut<M>(c: Codec<M>, m: M, k: nat)
    requires Encodes(c, m) && k < |Frame(c, m)|
    ensures !Parse(c, Frame(c, m)[..k]).Message?
    ensures k == 0 || !c.emptyIsEnd ==> (Parse(c, Frame(c, m)[..k]).Finished? <==> k == 0)
  {
    var data := c.encode(m);
    var prefix := Uvarint(|data|);
    ShortLength(|data|);
    var s := Frame(c, m)[..k];
    if k < |prefix| {
      LengthCut(|data|, k, 0);
      assert s == prefix[..k];
    } else {
      var part := data[..k - |prefix|];
      LengthReadBack(|data|, part, 0);
      assert s == prefix + part;
      assert s[|prefix|..] == part;
      assert part[..|part|] == part;
      assert Incomplete(c, m, k - |prefix|);
    }
  }

  // ---- streams ----

  function Parser<M>(c: Codec<M>): seq<Byte> -> Parsed<M> {
    s => Parse(c, s)
  }

  lemma ParserConsumes<M(!new)>(c: Codec<M>)
    ensures Consumes(Parser(c)) && Parser(c)([]).Finished?
  {
  }

  lemma FrameCarries<M(!new)>(c: Codec<M>, m: M)
    requires Encodes(c, m)
    ensures Carries(Parser(c), Frame(c, m), m, !c.emptyIsEnd)
  {
    var frame := Frame(c, m);
    forall tail: seq<Byte>
      ensures Parse(c, frame + tail) == Message(m, tail)
    {
      FrameRoundTrip(c, m, tail);
    }
    forall k: nat | k < |frame|
      ensures !Parse(c, frame[..k]).Message? && (!c.emptyIsEnd && k > 0 ==> Parse(c, frame[..k]).Broken?)
    {
      FrameCut(c, m, k);
    }
  }

  function Frames<M>(c: Codec<M>, ms: seq<M>): seq<seq<Byte>> {
    seq(|ms|, i requires 0 <= i < |ms| => Frame(c, ms[i]))
  }

  lemma FramesCarry<M(!new)>(c: Codec<M>, ms: seq<M>)
    requires forall i :: 0 <= i < |ms| ==> Encodes(c, ms[i])
    ensures AllCarry(Parser(c), Frames(c, ms), ms, !c.emptyIsEnd)
  {
    forall i | 0 <= i < |ms|
      ensures Carries(Parser(c), Frames(c, ms)[i], ms[i], !c.emptyIsEnd)
    {
      FrameCarries(c, ms[i]);
    }
  }

  /** Every list of messages comes out of its frames as it went in. */
  lemma MessagesRoundTrip<M(!new)>(c: Codec<M>, ms: seq<M>)
    requires forall i :: 0 <= i < |ms| ==> Encodes(c, ms[i])
    ensures Consumes(Parser(c)) && ReadAll(Parser(c), Concat(Frames(c, ms))) == Received(ms, true)
  {
    ParserConsumes(c);
    FramesCarry(c, ms);
    StreamRoundTrip(Parser(c), Frames(c, ms), ms, !c.emptyIsEnd);
  }

  /** A stream cut after k bytes delivers the messages whose frames are complete, in order, and nothing else. */
  lemma MessagesCut<M(!new)>(c: Codec<M>, ms: seq<M>, k: nat) returns (j: nat)
    requires forall i :: 0 <= i < |ms| ==> Encodes(c, ms[i])
    requires k <= |Concat(Frames(c, ms))|
    ensures Consumes(Parser(c)) && j <= |ms| && Arrived(Frames(c, ms), k, j)
    ensures ReadAll(Parser(c), Concat(Frames(c, ms))[..k]).messages == ms[..j]
    ensures Between(Frames(c, ms), k) ==> ReadAll(Parser(c), Concat(Frames(c, ms))[..k]).clean
    ensures !c.emptyIsEnd && ReadAll(Parser(c), Concat(Frames(c, ms))[..k]).clean ==> Between(Frames(c, ms), k)
  {
    ParserConsumes(c);
    FramesCarry(c, ms);
    j := StreamCut(Parser(c), Frames(c, ms), ms, !c.emptyIsEnd, k, Concat(Frames(c, ms))[..k]);
  }

  // ---- buffers and readers ----

  /** Writes the length into the buffer; the index stays inside exactly when the length fits. */
  method PutUvarint(buffer: array<Byte>, x: nat) returns (n: nat)
    requires |Uvarint(x)| <= buffer.Length
    modifies buffer
    ensures n == |Uvarint(x)| && buffer[..n] == Uvarint(x)
  {
    var y := x;
    n := 0;
    while y >= 128
      invariant n < buffer.Length && n + |Uvarint(y)| == |Uvarint(x)|
      invariant buffer[..n] + Uvarint(y) == Uvarint(x)
    {
      ghost var written := buffer[..n];
      buffer[n] := 128 + y % 128;
      y := y / 128;
      n := n + 1;
      assert buffer[..n] == written + [buffer[n - 1]];
    }
    buffer[n] := y;
    n := n + 1;
  }

  /** None is the panic of writing past the end of the length buffer. */
  method Serialize<M>(c: Codec<M>, m: M) returns (s: Option<seq<Byte>>)
    ensures s.Some? <==> |c.encode(m)| < 0x100_0000_0000_0000
    ensures s.Some? ==> s.value == Frame(c, m)
  {
    var data := c.encode(m);
    LengthBufferSuffices(|data|);
    if |data| >= 0x100_0000_0000_0000 {
      return None;
    }
    var buffer := new Byte[8];
    var n := PutUvarint(buffer, |data|);
    s := Some(buffer[..n] + data);
  }

  /** A buffered reader over what is left of a stream. */
  class Reader {
    var rest: seq<Byte>

    constructor (s: seq<Byte>)
      ensures rest == s
    {
      rest := s;
    }

    /** Reads one message; the length comes from the library's integer reader. */
    method Deserialize<M>(c: Codec<M>) returns (r: Parsed<M>)
      modifies this
      ensures r == Parse(c, old(rest))
      ensures r.Message? ==> rest == r.rest
    {
      var l := LengthOf(rest, 0);
      match l
      case End => r := Finished;
      case Bad => r := Broken;
      case Length(n, used) =>
        rest := rest[used..];
        if n == 0 || n > MAX_MESSAGE {
          return Broken;
        }
        var k := Min(n, |rest|);
        if k == 0 && c.emptyIsEnd {
          return Finished;
        }
        var m := c.decode(rest[..k]);
        rest := rest[Min(c.taken(rest[..k]), k)..];
        r := if m.None? then Broken else Message(m.value, rest);
    }

    /** The loop that serves an incoming stream; the receive channel has room for so many messages. */
    method ReadStream<M(!new)>(c: Codec<M>, room: nat) returns (messages: seq<M>, clean: bool)
      modifies this
      ensures Consumes(Parser(c)) && Received(messages, clean) == Limited(ReadAll(Parser(c), old(rest)), room)
    {
      ParserConsumes(c);
      messages := [];
      while true
        invariant |messages| <= room
        invariant Limited(ReadAll(Parser(c), old(rest)), room)
               == Prepend(messages, Limited(ReadAll(Parser(c), rest), room - |messages|))
        decreases |rest|
      {
        ghost var before := rest;
        var r := Deserialize(c);
        ReadNext(Parser(c), before, messages, room);
        if !r.Message? {
          return messages, r.Finished?;
        }
        if |messages| == room {
          return messages, false;
        }
        messages := messages + [r.message];
      }
    }
  }
}
