/** Reading a stream message by message, for any framing. */
module Streams {
  import opened Types

  /** What reading one message from the rest of a stream comes to. */
  datatype Parsed<M> = Finished | Broken | Message(message: M, rest: seq<Byte>)

  /** Every message takes up some bytes. */
  ghost predicate Consumes<M(!new)>(parse: seq<Byte> -> Parsed<M>) {
    forall s: seq<Byte> {:trigger parse(s)} :: parse(s).Message? ==> |parse(s).rest| < |s|
  }

  datatype Received<M> = Received(messages: seq<M>, clean: bool)

  /** What the read loop delivers, and whether it ended at the end of the stream. */
  ghost function ReadAll<M(!new)>(parse: seq<Byte> -> Parsed<M>, s: seq<Byte>): Received<M>
    requires Consumes(parse)
    decreases |s|
  {
    match parse(s)
    case Finished => Received([], true)
    case Broken => Received([], false)
    case Message(m, rest) =>
      var later := ReadAll(parse, rest);
      later.(messages := [m] + later.messages)
  }

  /** What gets through when there is room for so many messages: the stream is given up at the first one too many. */
  function Limited<M>(r: Received<M>, room: nat): Received<M> {
    if |r.messages| <= room then r else Received(r.messages[..room], false)
  }

  function Prepend<M>(messages: seq<M>, r: Received<M>): Received<M> {
    r.(messages := messages + r.messages)
  }

  /** One turn of the read loop. */
  lemma ReadNext<M(!new)>(parse: seq<Byte> -> Parsed<M>, s: seq<Byte>, messages: seq<M>, room: nat)
    requires Consumes(parse) && |messages| <= room
    ensures var r := parse(s);
            var now := Prepend(messages, Limited(ReadAll(parse, s), room - |messages|));
            && (!r.Message? ==> now == Received(messages, r.Finished?))
            && (r.Message? && |messages| == room ==> now == Received(messages, false))
            && (r.Message? && |messages| < room ==>
                  now == Prepend(messages + [r.message], Limited(ReadAll(parse, r.rest), room - |messages| - 1)))
  {
    var r := parse(s);
    if r.Message? {
      var later, left := ReadAll(parse, r.rest), room - |messages|;
      assert ReadAll(parse, s).messages == [r.message] + later.messages;
      if left > 0 && |later.messages| >= left {
        assert ([r.message] + later.messages)[..left] == [r.message] + later.messages[..left - 1];
      }
      assert messages + ([r.message] + Limited(later, if left == 0 then 0 else left - 1).messages)
          == messages + [r.message] + Limited(later, if left == 0 then 0 else left - 1).messages;
    }
  }

  function Concat(frames: seq<seq<Byte>>): seq<Byte> {
    if frames == [] then [] else frames[0] + Concat(frames[1..])
  }

  /** The frame yields the message whatever follows, and no message when it is cut short; strict: cut short it never looks like the end. */
  ghost predicate Carries<M(!new)>(parse: seq<Byte> -> Parsed<M>, frame: seq<Byte>, m: M, strict: bool) {
    && frame != []
    && (forall tail: seq<Byte> {:trigger parse(frame + tail)} :: parse(frame + tail) == Message(m, tail))
    && (forall k: nat {:trigger parse(frame[..k])} :: k < |frame| ==> !parse(frame[..k]).Message?)
    && (strict ==> forall k: nat {:trigger parse(frame[..k])} :: 0 < k < |frame| ==> parse(frame[..k]).Broken?)
  }

  ghost predicate AllCarry<M(!new)>(parse: seq<Byte> -> Parsed<M>, frames: seq<seq<Byte>>, ms: seq<M>, strict: bool) {
    |frames| == |ms| && forall i :: 0 <= i < |ms| ==> Carries(parse, frames[i], ms[i], strict)
  }

  /** Every list of messages comes out of its frames as it went in. */
  lemma {:induction false} StreamRoundTrip<M(!new)>(parse: seq<Byte> -> Parsed<M>, frames: seq<seq<Byte>>, ms: seq<M>, strict: bool)
    requires Consumes(parse) && parse([]).Finished? && AllCarry(parse, frames, ms, strict)
    ensures ReadAll(parse, Concat(frames)) == Received(ms, true)
    decreases |ms|
  {
    if ms != [] {
      assert Carries(parse, frames[0], ms[0], strict);
      StreamRoundTrip(parse, frames[1..], ms[1..], strict);
      assert ms == [ms[0]] + ms[1..];
    }
  }

  // ---- streams that break off ----

  /** k bytes hold the first j frames and not the next one. */
  ghost predicate Arrived(frames: seq<seq<Byte>>, k: nat, j: nat)
    decreases j
  {
    if j == 0 then frames != [] ==> k < |frames[0]|
    else frames != [] && |frames[0]| <= k && Arrived(frames[1..], k - |frames[0]|, j - 1)
  }

  /** The stream broke off between two frames. */
  ghost predicate Between(frames: seq<seq<Byte>>, k: nat)
    decreases |frames|
  {
    k == 0 || (frames != [] && |frames[0]| <= k && Between(frames[1..], k - |frames[0]|))
  }

  /**
   A stream that breaks off anywhere delivers the messages whose frames arrived whole and nothing
   else, and looks complete exactly when it broke off between frames.
   */
  lemma {:induction false} StreamCut<M(!new)>(parse: seq<Byte> -> Parsed<M>, frames: seq<seq<Byte>>, ms: seq<M>, strict: bool, k: nat, s: seq<Byte>)
    returns (j: nat)
    requires Consumes(parse) && parse([]).Finished? && AllCarry(parse, frames, ms, strict)
    requires k <= |Concat(frames)| && s == Concat(frames)[..k]
    ensures j <= |ms| && Arrived(frames, k, j) && ReadAll(parse, s).messages == ms[..j]
    ensures Between(frames, k) ==> ReadAll(parse, s).clean
    ensures strict && ReadAll(parse, s).clean ==> Between(frames, k)
    decreases |ms|
  {
    j := 0;
    if ms != [] {
      assert Carries(parse, frames[0], ms[0], strict);
      if k < |frames[0]| {
        assert s == frames[0][..k];
      } else {
        var tail := Concat(frames[1..])[..k - |frames[0]|];
        assert s == frames[0] + tail;
        var i := StreamCut(parse, frames[1..], ms[1..], strict, k - |frames[0]|, tail);
        j := i + 1;
        assert ms[..j] == [ms[0]] + ms[1..][..i];
      }
    }
  }
}
