/** The session-layer frame codec: src/core/frame.rs. */
module Frames {
  import opened Bytes
  import opened Options

  const HEADER_SIZE: nat := 7

  datatype Command =
    | Waste
    | Syn
    | Psh
    | Fin
    | Settings
    | Alert
    | UpdatePaddingScheme
    | SynAck
    | HeartRequest
    | HeartResponse
    | ServerSettings
    | Unknown(value: Byte)

  function CommandOf(b: Byte): (c: Command)
    ensures ByteOf(c) == b
  {
    match b
    case 0 => Waste
    case 1 => Syn
    case 2 => Psh
    case 3 => Fin
    case 4 => Settings
    case 5 => Alert
    case 6 => UpdatePaddingScheme
    case 7 => SynAck
    case 8 => HeartRequest
    case 9 => HeartResponse
    case 10 => ServerSettings
    case other => Unknown(other)
  }

  function ByteOf(c: Command): Byte
  {
    match c
    case Waste => 0
    case Syn => 1
    case Psh => 2
    case Fin => 3
    case Settings => 4
    case Alert => 5
    case UpdatePaddingScheme => 6
    case SynAck => 7
    case HeartRequest => 8
    case HeartResponse => 9
    case ServerSettings => 10
    case Unknown(value) => value
  }

  datatype Frame = Frame(cmd: Command, sid: U32, data: seq<Byte>) {
    /** The frames the wire can carry faithfully: the length field is 16 bits wide,
        and an `Unknown` command must not carry the number of a known one. */
    predicate Fits() {
      |data| < 0x1_0000 && CommandOf(ByteOf(cmd)) == cmd
    }
  }

  /** `Frame::to_bytes`; the length is cast to 16 bits. */
  function Encode(f: Frame): (s: seq<Byte>)
    ensures |s| == HEADER_SIZE + |f.data|
  {
    [ByteOf(f.cmd)] + PutU32(f.sid) + PutU16(|f.data| % 0x1_0000) + f.data
  }

  /** `Frame::from_bytes`: the first frame of `s`, if all of it has arrived. */
  function Decode(s: seq<Byte>): (r: Option<Frame>)
    ensures r.Some? ==> r.value.Fits() && HEADER_SIZE + |r.value.data| <= |s|
  {
    if |s| < HEADER_SIZE then None
    else
      var length := GetU16(s[5..7]);
      if |s| - HEADER_SIZE < length then None
      else Some(Frame(CommandOf(s[0]), GetU32(s[1..5]), s[HEADER_SIZE..HEADER_SIZE + length]))
  }

  /** All complete frames at the front of `s`, in order. */
  function Parsed(s: seq<Byte>): seq<Frame>
    decreases |s|
  {
    match Decode(s)
    case None => []
    case Some(f) => [f] + Parsed(s[HEADER_SIZE + |f.data|..])
  }

  /** What is left of `s` once its complete frames are taken off. */
  function Tail(s: seq<Byte>): seq<Byte>
    decreases |s|
  {
    match Decode(s)
    case None => s
    case Some(f) => Tail(s[HEADER_SIZE + |f.data|..])
  }

  function EncodeAll(fs: seq<Frame>): seq<Byte>
  {
    if fs == [] then [] else Encode(fs[0]) + EncodeAll(fs[1..])
  }

  ghost predicate AllFit(fs: seq<Frame>)
  {
    forall i :: 0 <= i < |fs| ==> fs[i].Fits()
  }

  // ---- The layout of the wire ----

  /** The commands in the order of their numbers. */
  const KNOWN: seq<Command> :=
    [Waste, Syn, Psh, Fin, Settings, Alert, UpdatePaddingScheme, SynAck, HeartRequest, HeartResponse, ServerSettings]

  /** A header is the command's number, the stream identifier and the length, both with the highest
      byte first; the data follows. */
  lemma Layout(f: Frame)
    ensures var s := Encode(f);
            && (forall i :: 0 <= i < |KNOWN| && f.cmd == KNOWN[i] ==> s[0] == i)
            && (f.cmd.Unknown? ==> s[0] == f.cmd.value)
            && BigEndian(s[1..5]) == f.sid && BigEndian(s[5..7]) == |f.data| % 0x1_0000
            && s[HEADER_SIZE..] == f.data
  {
    var s := Encode(f);
    assert s[1..5] == PutU32(f.sid) && s[5..7] == PutU16(|f.data| % 0x1_0000);
    ReadsU32(s[1..5]);
    ReadsU16(s[5..7]);
  }

  // ---- Round trips ----

  /** A frame in front of any bytes decodes to itself exactly when it fits. */
  lemma DecodeEncode(f: Frame, rest: seq<Byte>)
    ensures f.Fits() ==> Decode(Encode(f) + rest) == Some(f)
    ensures Decode(Encode(f)) == Some(f) <==> f.Fits()
  {
    var s := Encode(f) + rest;
    assert s[0] == ByteOf(f.cmd);
    assert s[1..5] == PutU32(f.sid);
    assert s[5..7] == PutU16(|f.data| % 0x1_0000);
    if f.Fits() {
      assert s[HEADER_SIZE..HEADER_SIZE + |f.data|] == f.data;
      assert Encode(f)[1..5] == PutU32(f.sid);
      assert Encode(f)[5..7] == PutU16(|f.data| % 0x1_0000);
      assert Encode(f)[HEADER_SIZE..HEADER_SIZE + |f.data|] == f.data;
    }
  }

  /** Decoding consumes exactly the encoding of the frame it returns. */
  lemma EncodeDecode(s: seq<Byte>)
    requires Decode(s).Some?
    ensures var f := Decode(s).value;
            s == Encode(f) + s[HEADER_SIZE + |f.data|..]
  {
    var f := Decode(s).value;
    PutGetU32(s[1..5]);
    PutGetU16(s[5..7]);
    assert s[..HEADER_SIZE] == [s[0]] + s[1..5] + s[5..7];
    assert s == s[..HEADER_SIZE] + s[HEADER_SIZE..HEADER_SIZE + |f.data|] + s[HEADER_SIZE + |f.data|..];
  }

  /** Arriving bytes never change a frame that was already complete. */
  lemma DecodeStable(a: seq<Byte>, b: seq<Byte>)
    requires Decode(a).Some?
    ensures Decode(a + b) == Decode(a)
  {
    EncodeDecode(a);
    var f := Decode(a).value;
    var rest := a[HEADER_SIZE + |f.data|..];
    assert a + b == Encode(f) + (rest + b);
    DecodeEncode(f, rest + b);
  }

  /** Parsing splits its input without loss: frames, then an incomplete tail. */
  lemma {:induction false} ParsedAndTail(s: seq<Byte>)
    ensures EncodeAll(Parsed(s)) + Tail(s) == s
    ensures Decode(Tail(s)).None?
    ensures AllFit(Parsed(s))
    decreases |s|
  {
    if Decode(s).Some? {
      var f := Decode(s).value;
      var rest := s[HEADER_SIZE + |f.data|..];
      EncodeDecode(s);
      ParsedAndTail(rest);
      assert Parsed(s)[1..] == Parsed(rest);
      assert Encode(f) + EncodeAll(Parsed(rest)) + Tail(rest) == Encode(f) + rest;
    }
  }

  /** Parsing `a` and then going on with `b` is parsing `a + b`. */
  lemma {:induction false} ParseSplit(a: seq<Byte>, b: seq<Byte>)
    ensures Parsed(a + b) == Parsed(a) + Parsed(Tail(a) + b)
    ensures Tail(a + b) == Tail(Tail(a) + b)
    decreases |a|
  {
    if Decode(a).Some? {
      var f := Decode(a).value;
      var n := HEADER_SIZE + |f.data|;
      DecodeStable(a, b);
      assert (a + b)[n..] == a[n..] + b;
      ParseSplit(a[n..], b);
      assert Parsed(a + b) == [f] + (Parsed(a[n..]) + Parsed(Tail(a[n..]) + b));
    }
  }

  lemma ParseStep(f: Frame, rest: seq<Byte>)
    requires f.Fits()
    ensures Parsed(Encode(f) + rest) == [f] + Parsed(rest)
    ensures Tail(Encode(f) + rest) == Tail(rest)
  {
    DecodeEncode(f, rest);
    assert (Encode(f) + rest)[HEADER_SIZE + |f.data|..] == rest;
  }

  /** Frames that fit survive the wire, whatever follows them. */
  lemma {:induction false} ParseEncodeAll(fs: seq<Frame>, rest: seq<Byte>)
    requires AllFit(fs)
    ensures Parsed(EncodeAll(fs) + rest) == fs + Parsed(rest)
    ensures Tail(EncodeAll(fs) + rest) == Tail(rest)
  {
    if fs == [] {
      assert EncodeAll(fs) + rest == rest;
    } else {
      assert fs == [fs[0]] + fs[1..];
      ParseEncodeAll(fs[1..], rest);
      ParseStep(fs[0], EncodeAll(fs[1..]) + rest);
      Assoc(Encode(fs[0]), EncodeAll(fs[1..]), rest);
      Assoc([fs[0]], fs[1..], Parsed(rest));
    }
  }

  lemma {:induction false} EncodeAllConcat(a: seq<Frame>, b: seq<Frame>)
    ensures EncodeAll(a + b) == EncodeAll(a) + EncodeAll(b)
  {
    if a == [] {
      assert a + b == b;
    } else {
      assert (a + b)[1..] == a[1..] + b;
      EncodeAllConcat(a[1..], b);
    }
  }

  lemma EncodeAllSnoc(fs: seq<Frame>, f: Frame)
    ensures EncodeAll(fs + [f]) == EncodeAll(fs) + Encode(f)
  {
    EncodeAllConcat(fs, [f]);
    assert [f][1..] == [] && Encode(f) + [] == Encode(f);
  }

  /** A shorter prefix of the wire yields a prefix of the frames. */
  lemma ParsePrefix(a: seq<Byte>, s: seq<Byte>)
    requires a <= s
    ensures Parsed(a) <= Parsed(s)
  {
    assert s == a + s[|a|..];
    ParseSplit(a, s[|a|..]);
  }

  // ---- Frames without padding ----

  /** The frames that carry meaning: everything but padding. */
  function NonWaste(fs: seq<Frame>): seq<Frame>
  {
    if fs == [] then []
    else (if fs[0].cmd.Waste? then [] else [fs[0]]) + NonWaste(fs[1..])
  }

  lemma {:induction false} NonWasteConcat(a: seq<Frame>, b: seq<Frame>)
    ensures NonWaste(a + b) == NonWaste(a) + NonWaste(b)
  {
    if a == [] {
      assert a + b == b;
    } else {
      assert (a + b)[1..] == a[1..] + b;
      NonWasteConcat(a[1..], b);
    }
  }

  lemma {:induction false} NonWasteIdentity(fs: seq<Frame>)
    requires forall i :: 0 <= i < |fs| ==> !fs[i].cmd.Waste?
    ensures NonWaste(fs) == fs
  {
    if fs != [] {
      NonWasteIdentity(fs[1..]);
    }
  }
}
