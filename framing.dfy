// The framing layer: what reaches the display, recorded as an append-only
// trace.  A frame is one byte shifted out while the DC line says whether it
// is a COMMAND (DC low) or DATA (DC high); the RESET line and the blocking
// delay used while resetting are events of their own.
module Framing {

  /** The tag a frame carries on the DC line (`enum typeOfWrite`). */
  datatype Kind = Command | Data

  datatype Event =
    | Frame(kind: Kind, value: bv8)  // one byte, DC low for Command, high for Data
    | ResetLine(high: bool)          // the level driven on RESET
    | Delay(ms: nat)                 // a blocking wait of `ms` milliseconds

  /** The frames that send `bs` one byte per frame, all tagged `kind`, in order. */
  function Frames(kind: Kind, bs: seq<bv8>): (r: seq<Event>)
    ensures |r| == |bs|
    ensures forall i :: 0 <= i < |bs| ==> r[i] == Frame(kind, bs[i])
  {
    if bs == [] then [] else [Frame(kind, bs[0])] + Frames(kind, bs[1..])
  }

  /** What the device reads as the bytes tagged `kind`: the values of the
      frames of that kind, in the order they were sent. */
  function Bytes(t: seq<Event>, kind: Kind): (r: seq<bv8>)
    ensures |r| <= |t|
  {
    if t == [] then []
    else if t[0].Frame? && t[0].kind == kind then [t[0].value] + Bytes(t[1..], kind)
    else Bytes(t[1..], kind)
  }

  lemma {:induction false} BytesAppend(a: seq<Event>, b: seq<Event>, kind: Kind)
    ensures Bytes(a + b, kind) == Bytes(a, kind) + Bytes(b, kind)
  {
    if a == [] {
      assert a + b == b;
    } else {
      assert (a + b)[1..] == a[1..] + b;
      BytesAppend(a[1..], b, kind);
    }
  }

  /** Reading back the bytes of `Frames(kind, bs)` gives `bs`; they carry
      no byte of the other kind. */
  lemma {:induction false} FramesRoundTrip(kind: Kind, bs: seq<bv8>)
    ensures Bytes(Frames(kind, bs), kind) == bs
    ensures Bytes(Frames(kind, bs), if kind == Data then Command else Data) == []
  {
    if bs != [] {
      var r := Frames(kind, bs);
      assert r[1..] == Frames(kind, bs[1..]);
      FramesRoundTrip(kind, bs[1..]);
    }
  }

  /** Sending the next byte of `bs` extends the trace by one frame. */
  lemma FramesStep(t: seq<Event>, kind: Kind, bs: seq<bv8>, i: nat)
    requires i < |bs|
    ensures t + Frames(kind, bs[..i]) + [Frame(kind, bs[i])] == t + Frames(kind, bs[..i + 1])
  {
  }

  /** Closing a run of DATA frames between two blank columns. */
  lemma PaddedFrames(t: seq<Event>, bs: seq<bv8>)
    ensures t + [Frame(Data, 0)] + Frames(Data, bs[..|bs|]) + [Frame(Data, 0)]
            == t + ([Frame(Data, 0)] + Frames(Data, bs) + [Frame(Data, 0)])
  {
    assert bs[..|bs|] == bs;
    ConcatAssoc(t, [Frame(Data, 0)], Frames(Data, bs), [Frame(Data, 0)]);
  }

  /** The bytes of a padded run: a blank column, `bs`, a blank column. */
  lemma PaddedBytes(bs: seq<bv8>)
    ensures Bytes([Frame(Data, 0)] + Frames(Data, bs) + [Frame(Data, 0)], Data) == [0] + bs + [0]
    ensures Bytes([Frame(Data, 0)] + Frames(Data, bs) + [Frame(Data, 0)], Command) == []
  {
    var blank, run := [Frame(Data, 0)], Frames(Data, bs);
    assert blank[1..] == [];
    BytesAppend(blank + run, blank, Data);
    BytesAppend(blank, run, Data);
    BytesAppend(blank + run, blank, Command);
    BytesAppend(blank, run, Command);
    FramesRoundTrip(Data, bs);
  }

  lemma ConcatAssoc(t: seq<Event>, a: seq<Event>, b: seq<Event>, c: seq<Event>)
    ensures t + a + b + c == t + (a + b + c)
  {
  }
}
