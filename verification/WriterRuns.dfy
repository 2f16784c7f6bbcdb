/** What any run of `write_conn` keeps: padding is invisible to the peer's parser. */
module WriterRuns {
  import opened Bytes
  import opened Frames
  import opened Padding
  import opened Writer

  // ---- Meaning of a byte string ----

  /** The bytes are complete frames, with nothing left over. */
  ghost predicate Whole(s: seq<Byte>)
  {
    Tail(s) == []
  }

  /** The frames a receiver acts on. */
  ghost function Meaning(s: seq<Byte>): seq<Frame>
  {
    NonWaste(Parsed(s))
  }

  lemma MeaningConcat(a: seq<Byte>, b: seq<Byte>)
    requires Whole(a)
    ensures Meaning(a + b) == Meaning(a) + Meaning(b)
    ensures Tail(a + b) == Tail(b)
  {
    ParseSplit(a, b);
    assert [] + b == b;
    NonWasteConcat(Parsed(a), Parsed(b));
  }

  lemma MeaningEncode(f: Frame)
    requires f.Fits()
    ensures Whole(Encode(f)) && Meaning(Encode(f)) == NonWaste([f])
  {
    ParseStep(f, []);
    assert Encode(f) + [] == Encode(f);
    assert Parsed([]) == [] && [f] + [] == [f];
  }

  // ---- Padding frames, including those too long for their length field ----

  lemma EmptyWaste()
    ensures Encode(WasteFrame(0)) == Zeros(HEADER_SIZE)
  {
  }

  lemma WasteFirst(f: Frame, rest: seq<Byte>)
    requires f.Fits() && f.cmd.Waste?
    ensures Meaning(Encode(f) + rest) == Meaning(rest)
    ensures Tail(Encode(f) + rest) == Tail(rest)
  {
    ParseStep(f, rest);
    assert ([f] + Parsed(rest))[1..] == Parsed(rest);
  }

  lemma ShortParse(s: seq<Byte>)
    requires |s| < HEADER_SIZE
    ensures Meaning(s) == [] && Tail(s) == s
  {
  }

  /** A run of zero bytes reads as empty padding frames, seven bytes each. */
  lemma {:induction false} ZerosParse(n: nat)
    ensures Meaning(Zeros(n)) == [] && Tail(Zeros(n)) == Zeros(n % HEADER_SIZE)
  {
    if n < HEADER_SIZE {
      ShortParse(Zeros(n));
    } else {
      ZerosParse(n - HEADER_SIZE);
      ZerosStep(n - HEADER_SIZE);
    }
  }

  lemma ZerosStep(n: nat)
    ensures Meaning(Zeros(HEADER_SIZE + n)) == Meaning(Zeros(n))
    ensures Tail(Zeros(HEADER_SIZE + n)) == Tail(Zeros(n))
    ensures (HEADER_SIZE + n) % HEADER_SIZE == n % HEADER_SIZE
  {
    EmptyWaste();
    ZerosSplit(HEADER_SIZE, n);
    WasteFirst(WasteFrame(0), Zeros(n));
  }

  /** The zeros beyond the 16-bit length of a padding frame of `n` bytes fill whole headers. */
  predicate Aligned(n: nat)
  {
    n / 0x1_0000 % HEADER_SIZE == 0
  }

  lemma OverflowZeros(q: nat)
    ensures (q * 0x1_0000) % HEADER_SIZE == 0 <==> q % HEADER_SIZE == 0
  {
    assert q * 0x1_0000 == 7 * (9362 * q) + 2 * q;
  }

  lemma WasteSplit(low: nat, high: nat)
    requires low < 0x1_0000
    ensures WasteBytes(low + 0x1_0000 * high) == Encode(WasteFrame(low)) + Zeros(0x1_0000 * high)
  {
    var n := low + 0x1_0000 * high;
    assert n % 0x1_0000 == low;
    ZerosSplit(low, 0x1_0000 * high);
    Assoc([0] + PutU32(0) + PutU16(low), Zeros(low), Zeros(0x1_0000 * high));
  }

  /** A padding frame never carries meaning; it keeps the stream aligned exactly when
      it is `Aligned`, which covers every length up to 65535. */
  lemma WasteParse(n: nat)
    ensures Meaning(WasteBytes(n)) == []
    ensures Whole(WasteBytes(n)) <==> Aligned(n)
    ensures n < 0x1_0000 ==> Aligned(n)
  {
    hide Meaning, WasteBytes, Encode, Zeros, Tail;
    var low, high := n % 0x1_0000, n / 0x1_0000;
    assert n == low + 0x1_0000 * high;
    WasteSplit(low, high);
    WasteFirst(WasteFrame(low), Zeros(0x1_0000 * high));
    ZerosParse(0x1_0000 * high);
    OverflowZeros(high);
    NoZeros(0x1_0000 * high % HEADER_SIZE);
  }

  lemma NoZeros(n: nat)
    ensures Zeros(n) == [] <==> n == 0
  {
  }

  // ---- One call ----

  /** The lengths of the padding frames a call emits behind `n` payload bytes. */
  function WasteLens(n: nat, sizes: seq<int>): seq<nat>
    decreases |sizes|
  {
    if sizes == [] then []
    else if sizes[0] == CHECK_MARK then
      if n == 0 then [] else WasteLens(n, sizes[1..])
    else
      var size := Max0(sizes[0]);
      if n > size then WasteLens(n - size, sizes[1..])
      else if n > 0 then
        (if n + HEADER_SIZE < size then [size - n - HEADER_SIZE] else []) + WasteLens(0, sizes[1..])
      else [size] + WasteLens(0, sizes[1..])
  }

  function Zone(lens: seq<nat>): seq<Byte>
  {
    if lens == [] then [] else WasteBytes(lens[0]) + Zone(lens[1..])
  }

  lemma {:induction false} ZoneConcat(a: seq<nat>, b: seq<nat>)
    ensures Zone(a + b) == Zone(a) + Zone(b)
  {
    if a == [] {
      assert a + b == b;
    } else {
      assert (a + b)[1..] == a[1..] + b;
      ZoneConcat(a[1..], b);
      Assoc(WasteBytes(a[0]), Zone(a[1..]), Zone(b));
    }
  }

  lemma ZoneOne(n: int)
    ensures n >= 0 ==> Zone([n]) == WasteBytes(n)
  {
    if n >= 0 {
      assert WasteBytes(n) + [] == WasteBytes(n);
      assert Zone([]) == [];
    }
  }

  lemma FlatPush(record: seq<Byte>, burst: Burst)
    ensures Flat(Push(record, burst).records) == record + Flat(burst.records)
  {
    assert ([record] + burst.records)[1..] == burst.records;
  }

  lemma EmptyZone()
    ensures Zone([]) == [] && Flat([]) == []
  {
  }

  /** One turn of the loop over the sizes. */
  lemma ShapeCases(bytes: seq<Byte>, sizes: seq<int>)
    ensures sizes == [] ==> Shape(bytes, sizes) == Burst([], bytes) && WasteLens(|bytes|, sizes) == []
    ensures sizes != [] && sizes[0] == CHECK_MARK ==>
              && Shape(bytes, sizes) == (if bytes == [] then Burst([], []) else Shape(bytes, sizes[1..]))
              && WasteLens(|bytes|, sizes) == (if bytes == [] then [] else WasteLens(|bytes|, sizes[1..]))
    ensures sizes != [] && sizes[0] != CHECK_MARK ==>
              var size, n := Max0(sizes[0]), |bytes|;
              var fill := if n + HEADER_SIZE < size then [size - n - HEADER_SIZE] else [];
              if n > size then
                && Shape(bytes, sizes) == Push(bytes[..size], Shape(bytes[size..], sizes[1..]))
                && WasteLens(n, sizes) == WasteLens(n - size, sizes[1..])
              else if n > 0 then
                && Shape(bytes, sizes) == Push(bytes + Zone(fill), Shape([], sizes[1..]))
                && WasteLens(n, sizes) == fill + WasteLens(0, sizes[1..])
              else
                && Shape(bytes, sizes) == Push([] + Zone([size]), Shape([], sizes[1..]))
                && WasteLens(n, sizes) == [size] + WasteLens(0, sizes[1..])
  {
    hide WasteBytes, Zone;
    EmptyZone();
    if sizes != [] && sizes[0] != CHECK_MARK {
      var size, n := Max0(sizes[0]), |bytes|;
      ZoneOne(size);
      ZoneOne(size - n - HEADER_SIZE);
      assert [] + WasteBytes(size) == WasteBytes(size);
    }
  }

  /** The records of a call are its payload, unchanged and in order, followed by padding frames. */
  lemma {:induction false} BurstBytes(bytes: seq<Byte>, sizes: seq<int>)
    ensures var b := Shape(bytes, sizes);
            Flat(b.records) + b.rest == bytes + Zone(WasteLens(|bytes|, sizes))
    ensures WasteLens(|bytes|, sizes) != [] ==> Shape(bytes, sizes).rest == []
    decreases |sizes|, 0
  {
    hide Zone, WasteBytes, Flat, Shape, WasteLens, Filler;
    EmptyZone();
    ShapeCases(bytes, sizes);
    if sizes == [] {
      assert bytes + [] == [] + bytes;
      return;
    }
    if sizes[0] == CHECK_MARK {
      if bytes != [] {
        BurstBytes(bytes, sizes[1..]);
      }
      return;
    }
    var size := Max0(sizes[0]);
    if |bytes| > size {
      BurstSplit(bytes, size, sizes[1..]);
      return;
    }
    if bytes != [] {
      BurstFinish(bytes, if |bytes| + HEADER_SIZE < size then [size - |bytes| - HEADER_SIZE] else [], sizes[1..]);
      return;
    }
    BurstFinish([], [size], sizes[1..]);
  }

  lemma BurstSplit(bytes: seq<Byte>, size: nat, sizes: seq<int>)
    requires size <= |bytes|
    ensures var b := Push(bytes[..size], Shape(bytes[size..], sizes));
            Flat(b.records) + b.rest == bytes + Zone(WasteLens(|bytes| - size, sizes))
    ensures WasteLens(|bytes| - size, sizes) != [] ==> Shape(bytes[size..], sizes).rest == []
    decreases |sizes|, 1
  {
    hide Shape, WasteLens, Zone, Flat;
    var b := Shape(bytes[size..], sizes);
    BurstBytes(bytes[size..], sizes);
    FlatPush(bytes[..size], b);
    assert bytes == bytes[..size] + bytes[size..];
    Assoc(bytes[..size], Flat(b.records), b.rest);
    Assoc(bytes[..size], bytes[size..], Zone(WasteLens(|bytes| - size, sizes)));
  }

  lemma BurstFinish(bytes: seq<Byte>, lens: seq<nat>, sizes: seq<int>)
    ensures var b := Push(bytes + Zone(lens), Shape([], sizes));
            Flat(b.records) + b.rest == bytes + Zone(lens + WasteLens(0, sizes)) && b.rest == []
    decreases |sizes|, 1
  {
    hide Shape, WasteLens, Zone;
    EmptyZone();
    var b := Shape([], sizes);
    var later := WasteLens(0, sizes);
    BurstBytes([], sizes);
    FlatPush(bytes + Zone(lens), b);
    ZoneConcat(lens, later);
    assert [] + Zone(later) == Zone(later);
    assert b.rest == [] by {
      if later == [] {
        assert |Flat(b.records) + b.rest| == 0;
      }
    }
    assert Flat(b.records) + [] == Flat(b.records);
    Assoc(bytes, Zone(lens), Zone(later));
  }

  ghost predicate AllAligned(lens: seq<nat>)
  {
    forall i :: 0 <= i < |lens| ==> Aligned(lens[i])
  }

  lemma {:induction false} ZoneMeaning(lens: seq<nat>)
    requires AllAligned(lens)
    ensures Whole(Zone(lens)) && Meaning(Zone(lens)) == []
  {
    if lens == [] {
      ShortParse([]);
    } else {
      WasteParse(lens[0]);
      ZoneMeaning(lens[1..]);
      MeaningConcat(WasteBytes(lens[0]), Zone(lens[1..]));
    }
  }

  /** Behind whole frames, the stream is on a frame boundary after each of a call's padding
      frames if and only if every one of them is aligned. */
  lemma {:induction false} AlignedExactly(payload: seq<Byte>, lens: seq<nat>)
    requires Whole(payload)
    ensures (forall k :: 0 <= k <= |lens| ==> Whole(payload + Zone(lens[..k]))) <==> AllAligned(lens)
  {
    if AllAligned(lens) {
      forall k | 0 <= k <= |lens|
        ensures Whole(payload + Zone(lens[..k]))
      {
        ZoneMeaning(lens[..k]);
        MeaningConcat(payload, Zone(lens[..k]));
      }
    } else {
      var k := FirstUnaligned(lens);
      ZoneMeaning(lens[..k]);
      assert lens[..k + 1] == lens[..k] + [lens[k]];
      ZoneConcat(lens[..k], [lens[k]]);
      ZoneOne(lens[k]);
      WasteParse(lens[k]);
      MeaningConcat(Zone(lens[..k]), WasteBytes(lens[k]));
      MeaningConcat(payload, Zone(lens[..k + 1]));
      assert !Whole(payload + Zone(lens[..k + 1]));
    }
  }

  lemma {:induction false} FirstUnaligned(lens: seq<nat>) returns (k: nat)
    requires !AllAligned(lens)
    ensures k < |lens| && !Aligned(lens[k]) && AllAligned(lens[..k])
  {
    k := 0;
    while Aligned(lens[k])
      invariant 0 <= k < |lens| && AllAligned(lens[..k])
      invariant exists i :: k <= i < |lens| && !Aligned(lens[i])
      decreases |lens| - k
    {
      k := k + 1;
    }
  }

  /** A scheme whose numbers are at most 65535 emits aligned padding frames only. */
  lemma {:induction false} SmallSizesAlign(n: nat, sizes: seq<int>)
    requires forall i :: 0 <= i < |sizes| ==> sizes[i] < 0x1_0000
    ensures AllAligned(WasteLens(n, sizes))
    decreases |sizes|
  {
    if sizes != [] {
      var size := Max0(sizes[0]);
      SmallSizesAlign(if n > size then n - size else 0, sizes[1..]);
      SmallSizesAlign(n, sizes[1..]);
    }
  }

  // ---- Whole runs ----

  /** The padding frames of one `write_conn` call. */
  function CallWastes(ws: State, bytes: seq<Byte>, stop: U32, sizes: seq<int>): seq<nat>
  {
    if !ws.buffering && ws.sendPadding && ws.counter + 1 < stop then WasteLens(|ws.buffer| + |bytes|, sizes) else []
  }

  /** One call moves the held-back bytes and the new ones to the wire or keeps them,
      adding nothing but padding frames. */
  lemma CallBytes(ws: State, bytes: seq<Byte>, stop: U32, sizes: seq<int>)
    requires ws.Valid()
    ensures var (ws', records) := WriteConn(ws, bytes, stop, sizes);
            && ws'.Valid()
            && (ws.buffering ==> records == [] && ws'.buffer == ws.buffer + bytes)
            && (!ws.buffering ==> ws'.buffer == [])
            && (!ws.buffering ==> Flat(records) == (ws.buffer + bytes) + Zone(CallWastes(ws, bytes, stop, sizes)))
  {
    hide Shape, WasteLens, Zone;
    EmptyZone();
    if !ws.buffering {
      var payload := ws.buffer + bytes;
      assert Flat([payload]) == payload + Flat([]);
      if ws.sendPadding && ws.counter + 1 < stop {
        var burst := Shape(payload, sizes);
        BurstBytes(payload, sizes);
        if burst.rest != [] {
          FlatSnoc(burst.records, burst.rest);
        } else {
          assert burst.records + [] == burst.records;
        }
      }
    }
  }

  /** What the writer task and the session ask of the writer. The scheme in force may change
      between calls, so each call comes with its own scheme and drawn sizes. */
  datatype Op = Submit(frame: Frame, factory: Factory, sizes: seq<int>) | SetBuffering(on: bool)

  datatype Trace = Trace(ws: State, records: seq<seq<Byte>>, wastes: seq<nat>, submitted: seq<Frame>) {
    function Wire(): seq<Byte> { Flat(records) }
  }

  function Run(isClient: bool, ops: seq<Op>): (t: Trace)
    ensures t.ws.Valid()
  {
    if ops == [] then Trace(Fresh(isClient), [], [], [])
    else Next(Run(isClient, ops[..|ops| - 1]), ops[|ops| - 1])
  }

  function Next(t: Trace, op: Op): (t': Trace)
    requires t.ws.Valid()
    ensures t'.ws.Valid()
  {
    match op
    case SetBuffering(on) => t.(ws := t.ws.(buffering := on))
    case Submit(frame, factory, sizes) =>
      var (ws, records) := WriteConn(t.ws, Encode(frame), factory.stop, sizes);
      var wastes := CallWastes(t.ws, Encode(frame), factory.stop, sizes);
      Trace(ws, t.records + records, t.wastes + wastes, t.submitted + [frame])
  }

  // ---- What is asked of a run ----

  /** Every frame fits its length field. */
  ghost predicate FramesFit(ops: seq<Op>)
  {
    forall i :: 0 <= i < |ops| && ops[i].Submit? ==> ops[i].frame.Fits()
  }

  /** No scheme in force lists a number above 65535. */
  ghost predicate SmallSchemes(ops: seq<Op>)
  {
    forall i :: 0 <= i < |ops| && ops[i].Submit? ==> SmallScheme(ops[i].factory)
  }

  ghost predicate SmallScheme(factory: Factory)
  {
    forall pkt: U32 :: NumbersUpTo(Items(factory.scheme, pkt), 0xffff)
  }

  /** A call that pads has drawn its sizes from the scheme's list for its packet. */
  ghost predicate Drawn(ws: State, op: Op)
  {
    op.Submit? && !ws.buffering && ws.sendPadding && ws.counter + 1 < op.factory.stop ==>
      Draws(Items(op.factory.scheme, ws.counter + 1), op.sizes)
  }

  ghost predicate AllDrawn(isClient: bool, ops: seq<Op>)
  {
    ops == [] ||
    (AllDrawn(isClient, ops[..|ops| - 1]) && Drawn(Run(isClient, ops[..|ops| - 1]).ws, ops[|ops| - 1]))
  }

  /** The runs the session layer promises to carry. */
  ghost predicate Fair(isClient: bool, ops: seq<Op>)
  {
    FramesFit(ops) && SmallSchemes(ops) && AllDrawn(isClient, ops)
  }

  lemma CallAligns(ws: State, op: Op)
    requires op.Submit? && SmallScheme(op.factory) && Drawn(ws, op)
    ensures AllAligned(CallWastes(ws, Encode(op.frame), op.factory.stop, op.sizes))
  {
    hide Draws, Items, NumbersUpTo, Encode;
    if !ws.buffering && ws.sendPadding && ws.counter + 1 < op.factory.stop {
      DrawnSizes(Items(op.factory.scheme, ws.counter + 1), op.sizes, 0xffff);
      SmallSizesAlign(|ws.buffer| + |Encode(op.frame)|, op.sizes);
    }
  }

  /** Schemes with small numbers only ever emit aligned padding, over every run and every draw. */
  lemma {:induction false} FairRunsAlign(isClient: bool, ops: seq<Op>)
    requires Fair(isClient, ops)
    ensures AllAligned(Run(isClient, ops).wastes) && AllFit(Run(isClient, ops).submitted)
  {
    hide SmallScheme, Drawn, Aligned, WriteConn, CallWastes;
    if ops != [] {
      var front, op := ops[..|ops| - 1], ops[|ops| - 1];
      FairRunsAlign(isClient, front);
      if op.Submit? {
        CallAligns(Run(isClient, front).ws, op);
      }
    }
  }

  /** The wire and the held-back bytes are whole frames, and together mean what was submitted. */
  ghost predicate Transparent(t: Trace)
  {
    && Whole(t.Wire()) && Whole(t.ws.buffer)
    && Meaning(t.Wire()) + Meaning(t.ws.buffer) == NonWaste(t.submitted)
  }

  /** Padding preserves meaning over every run: any frames that fit, any schemes with numbers up to
      65535, any sizes drawn from them, any buffering. */
  lemma PaddingIsTransparent(isClient: bool, ops: seq<Op>)
    requires Fair(isClient, ops)
    ensures Transparent(Run(isClient, ops))
  {
    FairRunsAlign(isClient, ops);
    AlignedIsTransparent(isClient, ops);
  }

  /** The same for any schemes, as long as the padding frames come out aligned. */
  lemma {:induction false} AlignedIsTransparent(isClient: bool, ops: seq<Op>)
    requires AllFit(Run(isClient, ops).submitted)
    requires AllAligned(Run(isClient, ops).wastes)
    ensures Transparent(Run(isClient, ops))
  {
    if ops == [] {
      ShortParse([]);
    } else {
      var t := Run(isClient, ops[..|ops| - 1]);
      var op := ops[|ops| - 1];
      var t' := Next(t, op);
      assert Run(isClient, ops) == t';
      assert t.submitted <= t'.submitted && t.wastes <= t'.wastes;
      AlignedIsTransparent(isClient, ops[..|ops| - 1]);
      if op.Submit? {
        assert t'.submitted[|t.submitted|] == op.frame;
        SubmitTransparent(t, op);
      }
    }
  }

  lemma SubmitTransparent(t: Trace, op: Op)
    requires t.ws.Valid() && Transparent(t) && op.Submit? && op.frame.Fits()
    requires AllAligned(Next(t, op).wastes)
    ensures Transparent(Next(t, op))
  {
    hide Encode, Parsed, Tail, Zone, Flat, CallWastes, WriteConn, Aligned;
    EmptyZone();
    var bytes := Encode(op.frame);
    var t' := Next(t, op);
    var (ws', records) := WriteConn(t.ws, bytes, op.factory.stop, op.sizes);
    CallBytes(t.ws, bytes, op.factory.stop, op.sizes);
    MeaningEncode(op.frame);
    MeaningConcat(t.ws.buffer, bytes);
    NonWasteConcat(t.submitted, [op.frame]);
    FlatConcat(t.records, records);
    Assoc(Meaning(t.Wire()), Meaning(t.ws.buffer), NonWaste([op.frame]));
    if t.ws.buffering {
      assert t.records + [] == t.records;
    } else {
      var lens := CallWastes(t.ws, bytes, op.factory.stop, op.sizes);
      ZoneOfCall(t.wastes, lens);
      MeaningConcat(t.ws.buffer + bytes, Zone(lens));
      MeaningConcat(t.Wire(), (t.ws.buffer + bytes) + Zone(lens));
      ShortParse([]);
    }
  }

  lemma ZoneOfCall(before: seq<nat>, lens: seq<nat>)
    requires AllAligned(before + lens)
    ensures Whole(Zone(lens)) && Meaning(Zone(lens)) == []
  {
    forall i | 0 <= i < |lens|
      ensures Aligned(lens[i])
    {
      assert (before + lens)[|before| + i] == lens[i];
    }
    ZoneMeaning(lens);
  }

  // ---- Exactly which sizes keep the meaning ----

  /** A client's first call under the one-entry size list `[size]`. */
  function FirstCall(frame: Frame, factory: Factory, size: nat): Trace
  {
    Run(true, [Submit(frame, factory, [size])])
  }

  lemma FirstCallWire(frame: Frame, factory: Factory, size: nat)
    requires factory.stop > 1
    ensures var t := FirstCall(frame, factory, size);
            var wastes := WasteLens(|Encode(frame)|, [size]);
            t.Wire() == Encode(frame) + Zone(wastes) && t.submitted == [frame] && t.wastes == wastes
  {
    hide Encode, Zone, WasteBytes, Shape, Flat, WasteLens;
    var bytes := Encode(frame);
    var op := Submit(frame, factory, [size]);
    var start := Trace(Fresh(true), [], [], []);
    assert [op][..0] == [];
    assert Run(true, [op]) == Next(start, op);
    var (ws, records) := WriteConn(Fresh(true), bytes, factory.stop, [size]);
    CallBytes(Fresh(true), bytes, factory.stop, [size]);
    var wastes := WasteLens(|bytes|, [size]);
    assert [] + bytes == bytes && [] + records == records && [] + wastes == wastes;
  }

  lemma OneWaste(len: nat, size: nat)
    requires len > 0
    ensures WasteLens(len, [size]) == if len + HEADER_SIZE < size then [size - len - HEADER_SIZE] else []
  {
    assert [size][1..] == [];
  }

  /** The call pads its record to `size`, and keeps the meaning exactly when there is nothing to pad
      or the padding is aligned. */
  lemma OnePaddedCall(frame: Frame, factory: Factory, size: nat)
    requires frame.Fits() && factory.stop > 1
    ensures var len := |Encode(frame)| + HEADER_SIZE;
            Transparent(FirstCall(frame, factory, size)) <==> size <= len || Aligned(size - len)
  {
    hide Encode, Zone, WasteBytes, Aligned, Run, WasteLens;
    var bytes := Encode(frame);
    FirstCallWire(frame, factory, size);
    OneWaste(|bytes|, size);
    var n := size - |bytes| - HEADER_SIZE;
    if n <= 0 || Aligned(n) {
      AlignedIsTransparent(true, [Submit(frame, factory, [size])]);
    } else {
      ZoneOne(n);
      WasteParse(n);
      MeaningEncode(frame);
      MeaningConcat(bytes, WasteBytes(n));
    }
  }

  /** The sizes that are safe behind every first frame. */
  predicate SafeSize(size: nat)
  {
    size <= 65549 || (size - 65549) % 458752 == 0
  }

  lemma SafeSizeAligns(size: nat, data: nat)
    requires SafeSize(size) && data <= 0xffff && size > 14 + data
    ensures Aligned(size - 14 - data)
  {
    if size > 65549 {
      var k := (size - 65549) / 458752;
      assert size - 14 - data == (0xffff - data) + 0x1_0000 * (7 * k);
      assert (size - 14 - data) / 0x1_0000 == 7 * k;
    }
  }

  lemma RoundsUp(m: nat)
    ensures (m + 0xffff) / 0x1_0000 == m / 0x1_0000 + if m % 0x1_0000 == 0 then 0 else 1
  {
  }

  lemma AlignedOnBothEnds(m: nat)
    requires Aligned(m) && Aligned(m + 0xffff)
    ensures m % 458752 == 0
  {
    var q := m / 0x1_0000;
    RoundsUp(m);
    assert m == 0x1_0000 * q && q == 7 * (q / 7);
    assert m == 458752 * (q / 7);
  }

  /** Which one-entry size lists a scheme may use: the meaning is kept behind every first frame that
      fits if and only if the size is at most 65549 or exceeds it by a multiple of 458752. */
  lemma SafeSizesExactly(factory: Factory, size: nat)
    requires factory.stop > 1
    ensures (forall frame: Frame :: frame.Fits() ==> Transparent(FirstCall(frame, factory, size))) <==> SafeSize(size)
  {
    hide FirstCall, Transparent, Aligned;
    if SafeSize(size) {
      forall frame: Frame | frame.Fits()
        ensures Transparent(FirstCall(frame, factory, size))
      {
        OnePaddedCall(frame, factory, size);
        if size > 14 + |frame.data| {
          SafeSizeAligns(size, |frame.data|);
        }
      }
    } else {
      var short, long := Frame(Psh, 1, []), Frame(Psh, 1, Zeros(0xffff));
      OnePaddedCall(short, factory, size);
      OnePaddedCall(long, factory, size);
      assert short.Fits() && long.Fits();
      if Aligned(size - 65549) && Aligned(size - 65549 + 0xffff) {
        AlignedOnBothEnds(size - 65549);
        assert false;
      }
    }
  }

  /** A failing input: 65536 bytes of padding behind any frame break the wire. */
  lemma LongPaddingBreaks(frame: Frame, factory: Factory)
    requires frame.Fits() && factory.stop > 1
    ensures !Transparent(FirstCall(frame, factory, |Encode(frame)| + HEADER_SIZE + 0x1_0000))
  {
    OnePaddedCall(frame, factory, |Encode(frame)| + HEADER_SIZE + 0x1_0000);
  }

  /** Once padding is off it stays off, and no further padding frame is emitted. */
  lemma {:induction false} PaddingNeverReturns(isClient: bool, ops: seq<Op>, more: seq<Op>)
    requires !Run(isClient, ops).ws.sendPadding
    ensures !Run(isClient, ops + more).ws.sendPadding
    ensures Run(isClient, ops + more).wastes == Run(isClient, ops).wastes
  {
    if more == [] {
      assert ops + more == ops;
    } else {
      var front := more[..|more| - 1];
      assert (ops + more)[..|ops + more| - 1] == ops + front;
      PaddingNeverReturns(isClient, ops, front);
    }
  }

  // ---- Record sizes ----

  /** The sum of the sizes in a list, check marks aside. */
  function Total(sizes: seq<int>): nat
  {
    if sizes == [] then 0
    else (if sizes[0] == CHECK_MARK then 0 else Max0(sizes[0])) + Total(sizes[1..])
  }

  /** How many of the entries are sizes rather than check marks. */
  function Count(sizes: seq<int>): nat
  {
    if sizes == [] then 0 else (if sizes[0] == CHECK_MARK then 0 else 1) + Count(sizes[1..])
  }

  /** The payload left when the loop has worked off `sizes`. */
  function Left(n: nat, sizes: seq<int>): nat
  {
    Max0(n - Total(sizes))
  }

  /** No check mark in front of entry `i` was reached with the payload exhausted. */
  ghost predicate Reached(n: nat, sizes: seq<int>, i: nat)
    requires i <= |sizes|
  {
    forall j :: 0 <= j < i && sizes[j] == CHECK_MARK ==> Left(n, sizes[..j]) > 0
  }

  lemma ReachedTail(n: nat, sizes: seq<int>, i: nat)
    requires 0 < i <= |sizes| && Reached(n, sizes, i)
    ensures sizes[0] == CHECK_MARK ==> n > 0
    ensures Reached(Left(n, sizes[..1]), sizes[1..], i - 1)
    ensures Left(n, sizes[..i]) == Left(Left(n, sizes[..1]), sizes[1..][..i - 1])
    ensures Left(n, sizes[..1]) == Max0(n - if sizes[0] == CHECK_MARK then 0 else Max0(sizes[0]))
    ensures Count(sizes[..i]) == (if sizes[0] == CHECK_MARK then 0 else 1) + Count(sizes[1..][..i - 1])
  {
    var rest := sizes[1..];
    assert sizes[..1][1..] == [] && sizes[..0] == [];
    assert Total(sizes[..1]) == (if sizes[0] == CHECK_MARK then 0 else Max0(sizes[0])) + Total([]);
    forall j | 0 < j <= i
      ensures Total(sizes[..j]) == Total(sizes[..1]) + Total(rest[..j - 1])
    {
      assert sizes[..j][1..] == rest[..j - 1];
    }
    forall j | 0 <= j < i - 1 && rest[j] == CHECK_MARK
      ensures Left(Left(n, sizes[..1]), rest[..j]) > 0
    {
      assert sizes[j + 1] == CHECK_MARK;
      assert Left(n, sizes[..j + 1]) > 0;
    }
    assert sizes[..i][1..] == rest[..i - 1];
  }

  /** The length a record must have under `size` when `left` payload bytes are waiting. */
  ghost predicate RecordLaw(length: nat, left: nat, size: nat)
  {
    && (left > size ==> length == size)
    && (0 < left <= size && left + HEADER_SIZE < size ==> length == size)
    && (0 < left <= size && left + HEADER_SIZE >= size ==> length == left && size - HEADER_SIZE <= length <= size)
    && (left == 0 ==> length == size + HEADER_SIZE)
  }

  /** The payload the loop goes on with after one entry. */
  function Advance(bytes: seq<Byte>, spec: int): (rest: seq<Byte>)
    ensures |rest| == Max0(|bytes| - if spec == CHECK_MARK then 0 else Max0(spec))
  {
    if spec == CHECK_MARK then bytes
    else if |bytes| > Max0(spec) then bytes[Max0(spec)..] else []
  }

  lemma NoneLeft(n: nat)
    ensures Left(n, []) == n && Count([]) == 0
  {
  }

  lemma ShapeStep(bytes: seq<Byte>, sizes: seq<int>)
    requires sizes != [] && (sizes[0] == CHECK_MARK ==> bytes != [])
    ensures var all, later := Shape(bytes, sizes).records, Shape(Advance(bytes, sizes[0]), sizes[1..]).records;
            if sizes[0] == CHECK_MARK then all == later
            else all != [] && all[1..] == later && RecordLaw(|all[0]|, |bytes|, Max0(sizes[0]))
  {
    if sizes[0] != CHECK_MARK {
      var later := Shape(Advance(bytes, sizes[0]), sizes[1..]);
      var first := Shape(bytes, sizes).records[0];
      assert Shape(bytes, sizes) == Push(first, later);
      assert ([first] + later.records)[1..] == later.records;
    }
  }

  /** Every size entry that is reached produces one record, in order, whose length obeys the law
      with the payload left by the entries in front of it. */
  lemma {:induction false} RecordSizes(bytes: seq<Byte>, sizes: seq<int>, i: nat)
    requires i < |sizes| && sizes[i] != CHECK_MARK && Reached(|bytes|, sizes, i)
    ensures Count(sizes[..i]) < |Shape(bytes, sizes).records|
    ensures RecordLaw(|Shape(bytes, sizes).records[Count(sizes[..i])]|, Left(|bytes|, sizes[..i]), Max0(sizes[i]))
    decreases |sizes|
  {
    hide Shape, Reached, Left, Count, RecordLaw, Advance;
    if i == 0 {
      assert sizes[..0] == [];
      NoneLeft(|bytes|);
      ShapeStep(bytes, sizes);
    } else {
      ReachedTail(|bytes|, sizes, i);
      ShapeStep(bytes, sizes);
      RecordSizes(Advance(bytes, sizes[0]), sizes[1..], i - 1);
    }
  }

  /** The number of records: one per size entry up to the first check mark that finds no payload. */
  lemma {:induction false} RecordCount(bytes: seq<Byte>, sizes: seq<int>, end: nat)
    requires end <= |sizes| && Reached(|bytes|, sizes, end)
    requires end < |sizes| ==> sizes[end] == CHECK_MARK && Left(|bytes|, sizes[..end]) == 0
    ensures |Shape(bytes, sizes).records| == Count(sizes[..end])
    decreases |sizes|
  {
    hide Reached, Left, Count, RecordLaw, Advance;
    NoneLeft(|bytes|);
    if end == 0 {
      assert sizes[..0] == [];
    } else {
      ReachedTail(|bytes|, sizes, end);
      ShapeStep(bytes, sizes);
      RecordCount(Advance(bytes, sizes[0]), sizes[1..], end - 1);
    }
  }

  // ---- Which packet a call is ----

  /** The writer holds frames back after the operations. */
  predicate Holds(ops: seq<Op>)
  {
    ops != [] && if ops[|ops| - 1].SetBuffering? then ops[|ops| - 1].on else Holds(ops[..|ops| - 1])
  }

  /** Operation `i` puts a packet on the wire. */
  predicate IsPacket(ops: seq<Op>, i: nat)
    requires i < |ops|
  {
    ops[i].Submit? && !Holds(ops[..i])
  }

  /** How many packets the operations put on the wire. */
  function Packets(ops: seq<Op>): nat
  {
    if ops == [] then 0
    else Packets(ops[..|ops| - 1]) + if IsPacket(ops, |ops| - 1) then 1 else 0
  }

  /** Every packet came before the stop of the scheme it was sent under. */
  ghost predicate BeforeStop(ops: seq<Op>)
  {
    forall i :: 0 <= i < |ops| && IsPacket(ops, i) ==> Packets(ops[..i]) + 1 < ops[i].factory.stop
  }

  lemma BeforeStopSnoc(ops: seq<Op>)
    requires ops != []
    ensures var front, last := ops[..|ops| - 1], |ops| - 1;
            BeforeStop(ops) <==>
              BeforeStop(front) && (IsPacket(ops, last) ==> Packets(front) + 1 < ops[last].factory.stop)
  {
    hide Holds, Packets;
    var front := ops[..|ops| - 1];
    forall i | 0 <= i < |front|
      ensures front[i] == ops[i] && front[..i] == ops[..i] && IsPacket(front, i) == IsPacket(ops, i)
    {
    }
    if BeforeStop(ops) {
      forall i | 0 <= i < |front| && IsPacket(front, i)
        ensures Packets(front[..i]) + 1 < front[i].factory.stop
      {
        assert IsPacket(ops, i);
      }
    }
  }

  /** What the writer knows is what happened: it holds frames back exactly when told so; its padding
      is on exactly on a client whose packets all came before the stop; and while it is on, the
      packet counter is the number of packets. */
  lemma {:induction false} PacketsCounted(isClient: bool, ops: seq<Op>)
    ensures var ws := Run(isClient, ops).ws;
            && ws.buffering == Holds(ops)
            && (ws.sendPadding <==> isClient && BeforeStop(ops))
            && (ws.sendPadding ==> ws.counter == Packets(ops))
  {
    hide BeforeStop, Shape, Encode;
    if ops == [] {
      assert BeforeStop(ops) by {
        NoPackets();
      }
    } else {
      PacketsCounted(isClient, ops[..|ops| - 1]);
      BeforeStopSnoc(ops);
    }
  }

  lemma NoPackets()
    ensures BeforeStop([])
  {
  }

  /** Under one stop, padding is on exactly while fewer packets than that were sent. */
  lemma {:induction false} FixedStop(isClient: bool, ops: seq<Op>, stop: U32)
    requires forall i :: 0 <= i < |ops| && ops[i].Submit? ==> ops[i].factory.stop == stop
    ensures BeforeStop(ops) <==> Packets(ops) == 0 || Packets(ops) < stop
    ensures Run(isClient, ops).ws.sendPadding <==> isClient && (Packets(ops) == 0 || Packets(ops) < stop)
  {
    hide BeforeStop, Run;
    PacketsCounted(isClient, ops);
    if ops == [] {
      NoPackets();
    } else {
      FixedStop(isClient, ops[..|ops| - 1], stop);
      BeforeStopSnoc(ops);
    }
  }

  /** If operation `i` puts a packet of a client on the wire before the stop, its sizes were drawn
      from the scheme's list for the number of that packet. */
  ghost predicate DrawsItsList(isClient: bool, ops: seq<Op>, i: nat)
    requires i < |ops|
  {
    IsPacket(ops, i) && isClient && BeforeStop(ops[..i + 1]) ==>
      && Packets(ops[..i + 1]) < 0x1_0000_0000
      && Draws(Items(ops[i].factory.scheme, Packets(ops[..i + 1])), ops[i].sizes)
  }

  lemma ListInFront(isClient: bool, ops: seq<Op>, i: nat)
    requires i < |ops| - 1
    ensures DrawsItsList(isClient, ops[..|ops| - 1], i) == DrawsItsList(isClient, ops, i)
  {
    var front := ops[..|ops| - 1];
    assert front[i] == ops[i] && front[..i] == ops[..i] && front[..i + 1] == ops[..i + 1];
  }

  lemma ListOfLast(isClient: bool, ops: seq<Op>)
    requires ops != []
    ensures Drawn(Run(isClient, ops[..|ops| - 1]).ws, ops[|ops| - 1]) == DrawsItsList(isClient, ops, |ops| - 1)
  {
    hide Draws, Items, BeforeStop, Run;
    PacketsCounted(isClient, ops[..|ops| - 1]);
    BeforeStopSnoc(ops);
    assert ops[..|ops|] == ops;
  }

  /** A client draws the sizes of its `k`-th packet from the scheme's list for packet `k`, as long as
      `k` is before the stop; nothing else is asked of a run. */
  lemma {:induction false} PacketsDrawn(isClient: bool, ops: seq<Op>)
    ensures AllDrawn(isClient, ops) <==> forall i :: 0 <= i < |ops| ==> DrawsItsList(isClient, ops, i)
  {
    hide DrawsItsList, Drawn;
    if ops != [] {
      var front := ops[..|ops| - 1];
      PacketsDrawn(isClient, front);
      ListOfLast(isClient, ops);
      forall i | 0 <= i < |front|
        ensures DrawsItsList(isClient, front, i) == DrawsItsList(isClient, ops, i)
      {
        ListInFront(isClient, ops, i);
      }
    }
  }

  // ---- What a call writes ----

  /** The frames held back after the operations. */
  function Held(ops: seq<Op>): seq<Frame>
  {
    if ops == [] then []
    else
      var front, op := ops[..|ops| - 1], ops[|ops| - 1];
      if op.SetBuffering? then Held(front) else if Holds(front) then Held(front) + [op.frame] else []
  }

  lemma {:induction false} HeldBytes(isClient: bool, ops: seq<Op>)
    ensures Run(isClient, ops).ws.buffer == EncodeAll(Held(ops))
  {
    hide Encode, Shape, EncodeAll;
    if ops == [] {
      assert EncodeAll([]) == [] by { NothingEncoded(); }
    } else {
      var front, op := ops[..|ops| - 1], ops[|ops| - 1];
      HeldBytes(isClient, front);
      PacketsCounted(isClient, front);
      NothingEncoded();
      if op.Submit? {
        EncodeAllSnoc(Held(front), op.frame);
      }
    }
  }

  lemma NothingEncoded()
    ensures EncodeAll([]) == []
  {
  }

  /** The records follow the sizes: one per size entry that is reached, of the length the law asks
      for, and one more for payload the sizes leave over. */
  ghost predicate FollowsSizes(records: seq<seq<Byte>>, n: nat, sizes: seq<int>)
  {
    && (forall i :: 0 <= i < |sizes| && sizes[i] != CHECK_MARK && Reached(n, sizes, i) ==>
          && Count(sizes[..i]) < |records|
          && RecordLaw(|records[Count(sizes[..i])]|, Left(n, sizes[..i]), Max0(sizes[i])))
    && (forall end: nat :: EndsAt(n, sizes, end) ==>
          |records| == Count(sizes[..end]) + if Left(n, sizes[..end]) > 0 then 1 else 0)
  }

  /** The loop over the sizes ends in front of entry `end`. */
  ghost predicate EndsAt(n: nat, sizes: seq<int>, end: nat)
  {
    && end <= |sizes| && Reached(n, sizes, end)
    && (end < |sizes| ==> sizes[end] == CHECK_MARK && Left(n, sizes[..end]) == 0)
  }

  lemma {:induction false} RestLeft(bytes: seq<Byte>, sizes: seq<int>, end: nat)
    requires EndsAt(|bytes|, sizes, end)
    ensures |Shape(bytes, sizes).rest| == Left(|bytes|, sizes[..end])
    decreases |sizes|
  {
    hide Left, Count, Reached;
    NoneLeft(|bytes|);
    if end == 0 {
      assert sizes[..0] == [];
    } else {
      ReachedTail(|bytes|, sizes, end);
      RestLeft(Advance(bytes, sizes[0]), sizes[1..], end - 1);
    }
  }

  lemma ShapeFollows(payload: seq<Byte>, sizes: seq<int>)
    ensures var burst := Shape(payload, sizes);
            FollowsSizes(burst.records + if burst.rest == [] then [] else [burst.rest], |payload|, sizes)
  {
    hide Shape, Reached, Left, Count, RecordLaw;
    var burst := Shape(payload, sizes);
    var records := burst.records + if burst.rest == [] then [] else [burst.rest];
    forall i | 0 <= i < |sizes| && sizes[i] != CHECK_MARK && Reached(|payload|, sizes, i)
      ensures Count(sizes[..i]) < |records|
      ensures RecordLaw(|records[Count(sizes[..i])]|, Left(|payload|, sizes[..i]), Max0(sizes[i]))
    {
      RecordSizes(payload, sizes, i);
    }
    forall end: nat | EndsAt(|payload|, sizes, end)
      ensures |records| == Count(sizes[..end]) + if Left(|payload|, sizes[..end]) > 0 then 1 else 0
    {
      RecordCount(payload, sizes, end);
      RestLeft(payload, sizes, end);
    }
  }

  /** What one more frame puts on the wire: nothing while frames are held back; otherwise all frames
      held back and the new one, cut along the sizes if this is a client's packet before the stop,
      and in one record if it is not. */
  lemma PacketWritten(isClient: bool, ops: seq<Op>, op: Op)
    requires op.Submit?
    ensures var before, after := Run(isClient, ops).records, Run(isClient, ops + [op]).records;
            var payload := EncodeAll(Held(ops) + [op.frame]);
            && before <= after
            && (Holds(ops) ==> after == before)
            && (!Holds(ops) && isClient && BeforeStop(ops + [op]) ==>
                  && FollowsSizes(after[|before|..], |payload|, op.sizes)
                  && Flat(after[|before|..]) == payload + Zone(WasteLens(|payload|, op.sizes)))
            && (!Holds(ops) && !(isClient && BeforeStop(ops + [op])) ==> after == before + [payload])
  {
    hide Encode, EncodeAll, Shape, Zone, WasteLens, BeforeStop, FollowsSizes, Flat, Run, Holds, Held;
    var t := Run(isClient, ops);
    RunSnoc(isClient, ops, op);
    PacketsCounted(isClient, ops);
    PacketsCounted(isClient, ops + [op]);
    HeldBytes(isClient, ops);
    EncodeAllSnoc(Held(ops), op.frame);
    var bytes := Encode(op.frame);
    var (ws, records) := WriteConn(t.ws, bytes, op.factory.stop, op.sizes);
    CallBytes(t.ws, bytes, op.factory.stop, op.sizes);
    ShapeFollows(t.ws.buffer + bytes, op.sizes);
    assert (t.records + records)[|t.records|..] == records;
  }

  lemma RunSnoc(isClient: bool, ops: seq<Op>, op: Op)
    ensures Run(isClient, ops + [op]) == Next(Run(isClient, ops), op)
  {
    assert (ops + [op])[..|ops|] == ops;
  }
}
