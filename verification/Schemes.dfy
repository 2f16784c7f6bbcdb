/** What the text of a padding scheme says: src/core/padding.rs. */
module Schemes {
  import opened Bytes
  import opened Options
  import opened Texts
  import opened StringMaps
  import opened Padding
  import WriterRuns

  // ---- Which texts are schemes ----

  /** The value of the last entry with the key. */
  function LastValue(order: seq<(Text, Text)>, key: Text): Option<Text>
  {
    if order == [] then None
    else if order[|order| - 1].0 == key then Some(order[|order| - 1].1)
    else LastValue(order[..|order| - 1], key)
  }

  lemma {:induction false} MapOfSnoc(order: seq<(Text, Text)>, entry: (Text, Text))
    ensures MapOf(order + [entry]) == MapOf(order)[entry.0 := entry.1]
  {
    if order == [] {
      assert [entry][1..] == [];
      assert order + [entry] == [entry];
    } else {
      assert (order + [entry])[1..] == order[1..] + [entry];
      MapOfSnoc(order[1..], entry);
    }
  }

  lemma {:induction false} LastWins(order: seq<(Text, Text)>, key: Text)
    ensures LastValue(order, key) == if key in MapOf(order) then Some(MapOf(order)[key]) else None
  {
    if order != [] {
      var front, entry := order[..|order| - 1], order[|order| - 1];
      assert order == front + [entry];
      MapOfSnoc(front, entry);
      LastWins(front, key);
    }
  }

  ghost predicate AllPrintable(order: seq<(Text, Text)>)
  {
    forall i :: 0 <= i < |order| ==> Printable(order[i].0, order[i].1)
  }

  /** The text the scheme lists for packet `pkt`, cut at its commas. */
  function Listed(order: seq<(Text, Text)>, pkt: U32): seq<Text>
  {
    match LastValue(order, Decimal(pkt))
    case None => []
    case Some(text) => Split(text, COMMA)
  }

  /** A list of entries is a scheme exactly when its last `stop` entry spells a 32-bit number. Then
      that number is the stop, and the items of a packet are those of its last entry. */
  lemma FactoryOfEntries(digest: Text -> Text, order: seq<(Text, Text)>)
    requires AllPrintable(order)
    ensures var r := NewFactory(digest, Print(order));
            && (r.Some? <==> exists n: U32 :: LastValue(order, StopKey()).Some? && Spells(LastValue(order, StopKey()).value, n))
            && (r.Some? ==>
                  && LastValue(order, StopKey()).Some? && Spells(LastValue(order, StopKey()).value, r.value.stop)
                  && r.value.raw == Print(order)
                  && forall pkt: U32 :: Items(r.value.scheme, pkt) == Listed(order, pkt))
  {
    hide Print, Spells, ParseUnsigned, Split, MapOf, Lines, Entries, Decimal;
    ReadPrint(order);
    LastWins(order, StopKey());
    if LastValue(order, StopKey()).Some? {
      StopSpelled(LastValue(order, StopKey()).value);
    }
    forall pkt: U32
      ensures Items(MapOf(order), pkt) == Listed(order, pkt)
    {
      LastWins(order, Decimal(pkt));
    }
  }

  lemma StopSpelled(text: Text)
    ensures ParseUnsigned(text, 0xffff_ffff).Some? <==> exists n: U32 :: Spells(text, n)
    ensures ParseUnsigned(text, 0xffff_ffff).Some? ==> Spells(text, ParseUnsigned(text, 0xffff_ffff).value)
  {
    hide Spells;
    if n: U32 :| Spells(text, n) {
      ParseExactly(text, 0xffff_ffff, n);
    }
    if ParseUnsigned(text, 0xffff_ffff).Some? {
      var n: U32 := ParseUnsigned(text, 0xffff_ffff).value;
      ParseExactly(text, 0xffff_ffff, n);
      assert Spells(text, n);
    }
  }

  // ---- What a size list says ----

  /** An entry of a size list as it is meant: a check mark, or a range given by its two ends. */
  datatype SizeSpec = CheckMark | Between(a: nat, b: nat)

  /** Both ends are positive and fit 64 bits. */
  predicate Proper(spec: SizeSpec)
  {
    spec.Between? ==> 0 < spec.a <= I64_MAX && 0 < spec.b <= I64_MAX
  }

  function PrintSpec(spec: SizeSpec): Text
  {
    match spec
    case CheckMark => Ascii("c")
    case Between(a, b) => Decimal(a) + [MINUS] + Decimal(b)
  }

  function PrintSpecs(specs: seq<SizeSpec>): (items: seq<Text>)
    ensures |items| == |specs| && forall i :: 0 <= i < |specs| ==> items[i] == PrintSpec(specs[i])
  {
    seq(|specs|, i requires 0 <= i < |specs| => PrintSpec(specs[i]))
  }

  /** `size` may be drawn for the entry. */
  ghost predicate MayDraw(spec: SizeSpec, size: int)
  {
    match spec
    case CheckMark => size == CHECK_MARK
    case Between(a, b) => exists n: int :: (a <= n <= b || b <= n <= a) && size == AsI32(n)
  }

  /** The sizes are drawn one for each entry. */
  ghost predicate MayDrawAll(specs: seq<SizeSpec>, sizes: seq<int>)
  {
    |sizes| == |specs| && forall i :: 0 <= i < |specs| ==> MayDraw(specs[i], sizes[i])
  }

  /** A text of digits, commas, minus signs and the letter c. */
  ghost predicate Plain(t: Text)
  {
    forall i :: 0 <= i < |t| ==> IsDigit(t[i]) || t[i] == COMMA || t[i] == MINUS || t[i] == 99
  }

  lemma ParseDigits(n: nat)
    ensures ParseI64(Decimal(n)) == if n <= I64_MAX then Some(n) else None
  {
    ParseDecimal(n, I64_MAX);
    assert IsDigit(Decimal(n)[0]);
  }

  /** A range is read whichever end comes first; it is ignored if it reaches zero or leaves 64 bits. */
  lemma SpecReads(spec: SizeSpec)
    ensures ParseItem(PrintSpec(spec)) ==
            if spec.CheckMark? then Check
            else if !Proper(spec) then Ignored
            else if spec.a <= spec.b then Range(spec.a, spec.b) else Range(spec.b, spec.a)
    ensures COMMA !in PrintSpec(spec) && Plain(PrintSpec(spec))
  {
    hide ParseI64, Decimal;
    if spec.Between? {
      var t := PrintSpec(spec);
      SplitOnceFirst(Decimal(spec.a), MINUS, Decimal(spec.b));
      ParseDigits(spec.a);
      ParseDigits(spec.b);
      assert t[|Decimal(spec.a)|] == MINUS != Ascii("c")[0];
      assert t != Ascii("c") by {
        assert |t| > 1;
      }
    }
  }

  /** What is drawn from a printed size list is one size for each entry. */
  lemma {:induction false} SpecsDraw(specs: seq<SizeSpec>, sizes: seq<int>)
    requires forall i :: 0 <= i < |specs| ==> Proper(specs[i])
    ensures Draws(PrintSpecs(specs), sizes) <==> MayDrawAll(specs, sizes)
  {
    hide ParseItem, PrintSpec, MayDraw, AsI32;
    if specs != [] {
      var front, spec := specs[..|specs| - 1], specs[|specs| - 1];
      assert PrintSpecs(specs)[..|specs| - 1] == PrintSpecs(front);
      SpecReads(spec);
      if sizes != [] {
        SpecsDraw(front, sizes[..|sizes| - 1]);
        DrawnLast(spec, sizes[|sizes| - 1]);
      }
    }
  }

  lemma DrawnLast(spec: SizeSpec, size: int)
    requires Proper(spec)
    ensures spec.Between? ==>
              var low, high := if spec.a <= spec.b then spec.a else spec.b, if spec.a <= spec.b then spec.b else spec.a;
              MayDraw(spec, size) <==> exists n: int :: low <= n <= high && size == AsI32(n)
    ensures spec.CheckMark? ==> (MayDraw(spec, size) <==> size == CHECK_MARK)
  {
    hide AsI32;
  }

  // ---- Whole schemes ----

  /** A scheme as it is meant: a stop, and size lists for packets. */
  datatype Scheme = Scheme(stop: U32, lists: seq<(U32, seq<SizeSpec>)>)

  ghost predicate AllProper(lists: seq<(U32, seq<SizeSpec>)>)
  {
    forall i, j :: 0 <= i < |lists| && 0 <= j < |lists[i].1| ==> Proper(lists[i].1[j])
  }

  /** The last size list given for the packet, or none. */
  function ListFor(lists: seq<(U32, seq<SizeSpec>)>, pkt: U32): seq<SizeSpec>
  {
    if lists == [] then []
    else if lists[|lists| - 1].0 == pkt then lists[|lists| - 1].1
    else ListFor(lists[..|lists| - 1], pkt)
  }

  function PrintList(list: (U32, seq<SizeSpec>)): (Text, Text)
  {
    (Decimal(list.0), Join(PrintSpecs(list.1), COMMA))
  }

  function EntriesOf(scheme: Scheme): seq<(Text, Text)>
    decreases |scheme.lists|
  {
    if scheme.lists == [] then [(StopKey(), Decimal(scheme.stop))]
    else EntriesOf(scheme.(lists := scheme.lists[..|scheme.lists| - 1])) + [PrintList(scheme.lists[|scheme.lists| - 1])]
  }

  lemma {:induction false} JoinPlain(items: seq<Text>)
    requires forall i :: 0 <= i < |items| ==> Plain(items[i])
    ensures Plain(Join(items, COMMA))
  {
    if |items| > 1 {
      JoinPlain(items[1..]);
    }
  }

  lemma PlainPrintable(key: Text, value: Text)
    requires Plain(key) && Plain(value)
    ensures Printable(key, value)
  {
  }

  lemma ListPrintable(list: (U32, seq<SizeSpec>))
    ensures Printable(PrintList(list).0, PrintList(list).1) && PrintList(list).0 != StopKey()
  {
    hide PrintSpec, Join, Printable, Decimal;
    forall i | 0 <= i < |list.1|
      ensures Plain(PrintSpecs(list.1)[i])
    {
      SpecReads(list.1[i]);
    }
    JoinPlain(PrintSpecs(list.1));
    PlainPrintable(PrintList(list).0, PrintList(list).1);
    assert IsDigit(Decimal(list.0)[0]);
  }

  lemma {:induction false} EntriesPrintable(scheme: Scheme)
    ensures AllPrintable(EntriesOf(scheme))
    ensures LastValue(EntriesOf(scheme), StopKey()) == Some(Decimal(scheme.stop))
    decreases |scheme.lists|
  {
    hide PrintList, Printable, Decimal;
    if scheme.lists == [] {
      assert Printable(StopKey(), Decimal(scheme.stop)) by {
        StopPrintable(scheme.stop);
      }
    } else {
      var front := scheme.(lists := scheme.lists[..|scheme.lists| - 1]);
      var list := PrintList(scheme.lists[|scheme.lists| - 1]);
      EntriesPrintable(front);
      ListPrintable(scheme.lists[|scheme.lists| - 1]);
      assert (EntriesOf(front) + [list])[..|EntriesOf(front)|] == EntriesOf(front);
    }
  }

  lemma StopPrintable(stop: U32)
    ensures Printable(StopKey(), Decimal(stop))
  {
    hide Decimal;
    var t := Decimal(stop);
    assert forall i :: 0 <= i < |t| ==> IsDigit(t[i]);
  }

  lemma SameNumber(a: nat, b: nat)
    ensures Decimal(a) == Decimal(b) <==> a == b
  {
    DigitsOfDecimal(a);
    DigitsOfDecimal(b);
  }

  /** The items a printed scheme lists for a packet are those of its size list; an empty list prints
      as one empty item. */
  lemma {:induction false} ListedItems(scheme: Scheme, pkt: U32)
    ensures var specs, items := ListFor(scheme.lists, pkt), Listed(EntriesOf(scheme), pkt);
            items == PrintSpecs(specs) || (specs == [] && items == [[]])
    decreases |scheme.lists|
  {
    hide Decimal, Split, Join;
    var entries := EntriesOf(scheme);
    if scheme.lists == [] {
      NoneListed(Decimal(scheme.stop), pkt);
      assert PrintSpecs([]) == [];
    } else {
      var front, list := scheme.(lists := scheme.lists[..|scheme.lists| - 1]), scheme.lists[|scheme.lists| - 1];
      ListedItems(front, pkt);
      SameNumber(list.0, pkt);
      assert entries[..|entries| - 1] == EntriesOf(front);
      if list.0 == pkt {
        ItemsOfList(list.1);
      }
    }
  }

  lemma NoneListed(value: Text, pkt: U32)
    ensures Listed([(StopKey(), value)], pkt) == []
  {
    assert IsDigit(Decimal(pkt)[0]) && !IsDigit(StopKey()[0]);
    assert [(StopKey(), value)][..0] == [];
    assert LastValue([], Decimal(pkt)) == None;
  }

  lemma ItemsOfList(specs: seq<SizeSpec>)
    ensures Split(Join(PrintSpecs(specs), COMMA), COMMA) == if specs == [] then [[]] else PrintSpecs(specs)
  {
    hide PrintSpec;
    forall i | 0 <= i < |specs|
      ensures COMMA !in PrintSpecs(specs)[i]
    {
      SpecReads(specs[i]);
    }
    if specs != [] {
      SplitJoin(PrintSpecs(specs), COMMA);
    }
  }

  lemma EmptyItemDraws(sizes: seq<int>)
    ensures Draws([[]], sizes) <==> sizes == []
  {
    var empty: seq<Text> := [[]];
    assert empty[..0] == [];
  }

  /** A scheme means what it says: its printed text is accepted, its stop is the stop, and what is
      drawn for a packet is one size for each entry of the packet's list. */
  lemma SchemeMeans(digest: Text -> Text, scheme: Scheme)
    requires AllProper(scheme.lists)
    ensures var r := NewFactory(digest, Print(EntriesOf(scheme)));
            && r.Some? && r.value.stop == scheme.stop
            && forall pkt: U32, sizes :: Draws(Items(r.value.scheme, pkt), sizes) <==> MayDrawAll(ListFor(scheme.lists, pkt), sizes)
  {
    hide Print, EntriesOf, Draws, MayDrawAll, Spells, NewFactory, Items, Listed, ListFor;
    var entries := EntriesOf(scheme);
    EntriesPrintable(scheme);
    FactoryOfEntries(digest, entries);
    StopIs(scheme.stop);
    var factory := NewFactory(digest, Print(entries)).value;
    assert factory.stop == scheme.stop by {
      StopUnique(scheme.stop, factory.stop);
    }
    forall pkt: U32, sizes
      ensures Draws(Items(factory.scheme, pkt), sizes) <==> MayDrawAll(ListFor(scheme.lists, pkt), sizes)
    {
      DrawsList(scheme, pkt, sizes);
    }
  }

  lemma StopIs(stop: U32)
    ensures Spells(Decimal(stop), stop)
  {
    assert Decimal(stop) == ZeroDigits(0) + Decimal(stop);
  }

  lemma StopUnique(stop: U32, other: U32)
    requires Spells(Decimal(stop), other)
    ensures other == stop
  {
    ParseExactly(Decimal(stop), 0xffff_ffff, other);
    ParseDecimal(stop, 0xffff_ffff);
  }

  lemma {:induction false} ProperList(lists: seq<(U32, seq<SizeSpec>)>, pkt: U32)
    requires AllProper(lists)
    ensures forall i :: 0 <= i < |ListFor(lists, pkt)| ==> Proper(ListFor(lists, pkt)[i])
  {
    if lists != [] {
      ProperList(lists[..|lists| - 1], pkt);
    }
  }

  lemma DrawsList(scheme: Scheme, pkt: U32, sizes: seq<int>)
    requires AllProper(scheme.lists)
    ensures Draws(Listed(EntriesOf(scheme), pkt), sizes) <==> MayDrawAll(ListFor(scheme.lists, pkt), sizes)
  {
    hide Draws, MayDrawAll, EntriesOf, Listed, ListFor, PrintSpecs;
    var specs := ListFor(scheme.lists, pkt);
    ProperList(scheme.lists, pkt);
    ListedItems(scheme, pkt);
    SpecsDraw(specs, sizes);
    if Listed(EntriesOf(scheme), pkt) != PrintSpecs(specs) {
      EmptyItemDraws(sizes);
      NothingDrawn(sizes);
    }
  }

  lemma NothingDrawn(sizes: seq<int>)
    ensures MayDrawAll([], sizes) <==> sizes == []
  {
  }

  // ---- Any item ----

  /** The text is two positive 64-bit numbers with a minus sign between them. */
  ghost predicate SpellsRange(t: Text, a: nat, b: nat)
  {
    && 0 < a <= I64_MAX && 0 < b <= I64_MAX
    && exists i :: 0 <= i < |t| && t[i] == MINUS && Spells(t[..i], a) && Spells(t[i + 1..], b)
  }

  lemma {:induction false} NoMinus(t: Text, n: nat)
    requires Spells(t, n)
    ensures MINUS !in t
  {
    hide Decimal;
    var k: nat :| t == ZeroDigits(k) + Decimal(n) || t == [PLUS] + ZeroDigits(k) + Decimal(n);
    var digits := ZeroDigits(k) + Decimal(n);
    assert forall i :: 0 <= i < |digits| ==> IsDigit(digits[i]);
    assert t == digits || t == [PLUS] + digits;
  }

  lemma PositiveI64(t: Text, n: nat)
    requires n > 0
    ensures ParseI64(t) == Some(n) <==> Spells(t, n) && n <= I64_MAX
  {
    hide Spells, DigitsValue, ParseUnsigned;
    ParseExactly(t, I64_MAX, n);
    if Spells(t, n) {
      NoMinus(t, n);
    }
  }

  lemma SplitAt(t: Text, i: nat)
    requires i < |t| && t[i] == MINUS && MINUS !in t[..i]
    ensures SplitOnce(t, MINUS) == Some((t[..i], t[i + 1..]))
  {
    assert t == t[..i] + [MINUS] + t[i + 1..];
    SplitOnceFirst(t[..i], MINUS, t[i + 1..]);
  }

  /** What an item means: it is a check mark exactly if it is `c`, a range exactly if it spells one, in
      either order, and nothing otherwise. */
  lemma ItemExactly(t: Text, low: int, high: int)
    ensures ParseItem(t).Check? <==> t == Ascii("c")
    ensures ParseItem(t) == Range(low, high) <==>
              0 < low <= high && (SpellsRange(t, low, high) || SpellsRange(t, high, low))
  {
    hide Spells, ParseI64;
    if 0 < low <= high && (SpellsRange(t, low, high) || SpellsRange(t, high, low)) {
      var a, b := if SpellsRange(t, low, high) then low else high, if SpellsRange(t, low, high) then high else low;
      SpelledRangeReads(t, a, b);
    }
    if ParseItem(t) == Range(low, high) {
      ReadRangeSpelled(t);
    }
  }

  lemma SpelledRangeReads(t: Text, a: nat, b: nat)
    requires SpellsRange(t, a, b)
    ensures ParseItem(t) == if a <= b then Range(a, b) else Range(b, a)
  {
    hide Spells, ParseI64;
    var i :| 0 <= i < |t| && t[i] == MINUS && Spells(t[..i], a) && Spells(t[i + 1..], b);
    NoMinus(t[..i], a);
    SplitAt(t, i);
    PositiveI64(t[..i], a);
    PositiveI64(t[i + 1..], b);
    assert t != Ascii("c") by {
      assert t[i] != Ascii("c")[0];
    }
  }

  lemma ReadRangeSpelled(t: Text)
    requires ParseItem(t).Range?
    ensures SpellsRange(t, ParseItem(t).low, ParseItem(t).high) || SpellsRange(t, ParseItem(t).high, ParseItem(t).low)
  {
    hide Spells, ParseI64;
    var (left, right) := SplitOnce(t, MINUS).value;
    var a, b := ParseI64(left).value, ParseI64(right).value;
    PositiveI64(left, a);
    PositiveI64(right, b);
    var i := |left|;
    assert t[..i] == left && t[i + 1..] == right && t[i] == MINUS;
    assert SpellsRange(t, a, b);
  }

  // ---- The default scheme ----

  /** The scheme of a fresh installation. */
  function DefaultScheme(): Scheme
  {
    var busy := Between(500, 1000);
    Scheme(8, [(0, [Between(30, 30)]), (1, [Between(100, 400)]),
               (2, [Between(400, 500), CheckMark, busy, CheckMark, busy, CheckMark, busy, CheckMark, busy]),
               (3, [Between(9, 9), busy]), (4, [busy]), (5, [busy]), (6, [busy]), (7, [busy])])
  }

  /** Its text, line by line. */
  function DefaultLines(): (lines: seq<Text>)
    ensures |lines| == 9
  {
    var c, busy := Ascii("c"), Ascii("500-1000");
    [Ascii("stop=8"), Ascii("0=") + Ascii("30-30"), Ascii("1=") + Ascii("100-400"),
     Ascii("2=") + Join([Ascii("400-500"), c, busy, c, busy, c, busy, c, busy], COMMA),
     Ascii("3=") + Join([Ascii("9-9"), busy], COMMA),
     Ascii("4=") + busy, Ascii("5=") + busy, Ascii("6=") + busy, Ascii("7=") + busy]
  }

  function DefaultText(): Text { Join(DefaultLines(), LF) }

  function Printed(lists: seq<(U32, seq<SizeSpec>)>): (entries: seq<(Text, Text)>)
    ensures |entries| == |lists| && forall i :: 0 <= i < |lists| ==> entries[i] == PrintList(lists[i])
  {
    seq(|lists|, i requires 0 <= i < |lists| => PrintList(lists[i]))
  }

  lemma {:induction false} EntriesAre(scheme: Scheme)
    ensures EntriesOf(scheme) == [(StopKey(), Decimal(scheme.stop))] + Printed(scheme.lists)
    decreases |scheme.lists|
  {
    hide PrintList, Decimal;
    if scheme.lists != [] {
      var front := scheme.(lists := scheme.lists[..|scheme.lists| - 1]);
      EntriesAre(front);
      assert Printed(scheme.lists) == Printed(front.lists) + [PrintList(scheme.lists[|scheme.lists| - 1])];
    }
  }

  lemma Digit(d: nat)
    requires d < 10
    ensures Decimal(d) == [48 + d]
  {
  }

  lemma Digits2(n: nat)
    requires 10 <= n < 100
    ensures Decimal(n) == [48 + n / 10, 48 + n % 10]
  {
  }

  lemma Digits3(n: nat)
    requires 100 <= n < 1000
    ensures Decimal(n) == [48 + n / 100, 48 + n / 10 % 10, 48 + n % 10]
  {
    Digits2(n / 10);
  }

  lemma SizeTexts()
    ensures PrintSpec(CheckMark) == Ascii("c") && PrintSpec(Between(500, 1000)) == Ascii("500-1000")
    ensures PrintSpec(Between(30, 30)) == Ascii("30-30") && PrintSpec(Between(9, 9)) == Ascii("9-9")
  {
    Digits3(500);
    Digits3(100);
    Digits2(30);
    assert Decimal(1000) == Decimal(100) + [48];
    Digit(9);
    hide Decimal;
    assert Ascii("500-1000") == [53, 48, 48] + [MINUS] + [49, 48, 48, 48];
    assert Ascii("30-30") == [51, 48] + [MINUS] + [51, 48];
  }

  lemma FirstSizeText()
    ensures PrintSpec(Between(100, 400)) == Ascii("100-400")
  {
    Digits3(100);
    Digits3(400);
    hide Decimal;
    assert Ascii("100-400") == [49, 48, 48] + [MINUS] + [52, 48, 48];
  }

  lemma SecondSizeText()
    ensures PrintSpec(Between(400, 500)) == Ascii("400-500")
  {
    Digits3(400);
    Digits3(500);
    hide Decimal;
    assert Ascii("400-500") == [52, 48, 48] + [MINUS] + [53, 48, 48];
  }

  lemma KeyTexts()
    ensures StopKey() + Ascii("=") + Decimal(8) == Ascii("stop=8")
    ensures Decimal(0) + Ascii("=") == Ascii("0=") && Decimal(1) + Ascii("=") == Ascii("1=")
    ensures Decimal(2) + Ascii("=") == Ascii("2=") && Decimal(3) + Ascii("=") == Ascii("3=")
  {
  }

  lemma MoreKeyTexts()
    ensures Decimal(4) + Ascii("=") == Ascii("4=") && Decimal(5) + Ascii("=") == Ascii("5=")
    ensures Decimal(6) + Ascii("=") == Ascii("6=") && Decimal(7) + Ascii("=") == Ascii("7=")
  {
  }

  lemma JoinOne(spec: SizeSpec)
    ensures Join(PrintSpecs([spec]), COMMA) == PrintSpec(spec)
  {
    hide PrintSpec;
  }

  lemma PacketTwo()
    ensures var c, busy := Ascii("c"), Ascii("500-1000");
            PrintSpecs(DefaultScheme().lists[2].1) == [Ascii("400-500"), c, busy, c, busy, c, busy, c, busy]
    ensures PrintSpecs(DefaultScheme().lists[3].1) == [Ascii("9-9"), Ascii("500-1000")]
  {
    SizeTexts();
    SecondSizeText();
    hide Ascii, PrintSpec;
  }

  /** Line `i + 1` is that of the `i`-th size list. */
  lemma DefaultLine(i: nat)
    requires i < 8
    ensures var (key, value) := PrintList(DefaultScheme().lists[i]);
            key + Ascii("=") + value == DefaultLines()[i + 1]
  {
    SizeTexts();
    FirstSizeText();
    KeyTexts();
    MoreKeyTexts();
    PacketTwo();
    hide Ascii, PrintSpec, Decimal, PrintSpecs, Join;
    JoinOne(Between(30, 30));
    JoinOne(Between(100, 400));
    JoinOne(Between(500, 1000));
  }

  lemma DefaultPrinted()
    ensures Print(EntriesOf(DefaultScheme())) == DefaultText()
  {
    hide PrintList, Ascii, Decimal, DefaultScheme, DefaultLines, Join, Print, LinesOf;
    var entries := EntriesOf(DefaultScheme());
    EntriesAre(DefaultScheme());
    DefaultHead();
    var lines := LinesOf(entries);
    forall i | 1 <= i < 9
      ensures lines[i] == DefaultLines()[i]
    {
      DefaultLine(i - 1);
    }
    assert lines == DefaultLines();
    PrintIsLines(entries);
  }

  lemma DefaultHead()
    ensures |DefaultScheme().lists| == 8 && DefaultScheme().stop == 8
    ensures StopKey() + Ascii("=") + Decimal(8) == DefaultLines()[0]
    ensures Ascii("\n")[0] == LF
  {
    KeyTexts();
    assert Ascii("\n")[0] == LF;
    hide Ascii, Decimal;
  }

  lemma {:induction false} BoundedList(lists: seq<(U32, seq<SizeSpec>)>, pkt: U32, max: nat)
    requires forall i, j :: 0 <= i < |lists| && 0 <= j < |lists[i].1| && lists[i].1[j].Between? ==>
               lists[i].1[j].a <= max && lists[i].1[j].b <= max
    ensures forall j :: 0 <= j < |ListFor(lists, pkt)| && ListFor(lists, pkt)[j].Between? ==>
              ListFor(lists, pkt)[j].a <= max && ListFor(lists, pkt)[j].b <= max
  {
    if lists != [] {
      BoundedList(lists[..|lists| - 1], pkt, max);
    }
  }

  /** The bound on a printed scheme's numbers is the bound on its ranges. */
  lemma SchemeBounded(scheme: Scheme, pkt: U32, max: nat)
    requires forall i, j :: 0 <= i < |scheme.lists| && 0 <= j < |scheme.lists[i].1| && scheme.lists[i].1[j].Between? ==>
               scheme.lists[i].1[j].a <= max && scheme.lists[i].1[j].b <= max
    ensures NumbersUpTo(Listed(EntriesOf(scheme), pkt), max)
  {
    hide EntriesOf, Listed, ParseItem, PrintSpec;
    var specs, items := ListFor(scheme.lists, pkt), Listed(EntriesOf(scheme), pkt);
    BoundedList(scheme.lists, pkt, max);
    ListedItems(scheme, pkt);
    EmptyItem();
    forall i | 0 <= i < |items| && ParseItem(items[i]).Range?
      ensures ParseItem(items[i]).high <= max
    {
      SpecReads(specs[i]);
    }
  }

  lemma EmptyItem()
    ensures ParseItem([]) == Ignored
  {
  }

  lemma DefaultBounds()
    ensures AllProper(DefaultScheme().lists)
    ensures var lists := DefaultScheme().lists;
            forall i, j :: 0 <= i < |lists| && 0 <= j < |lists[i].1| && lists[i].1[j].Between? ==>
              lists[i].1[j].a <= 1000 && lists[i].1[j].b <= 1000
  {
  }

  /** The default text is a scheme: it stops at packet 8, every packet draws from its own line, and its
      numbers are small enough for every run. */
  lemma DefaultMeans(digest: Text -> Text)
    ensures var r := NewFactory(digest, DefaultText());
            && r.Some? && r.value.stop == 8 && WriterRuns.SmallScheme(r.value)
            && forall pkt: U32, sizes ::
                 Draws(Items(r.value.scheme, pkt), sizes) <==> MayDrawAll(ListFor(DefaultScheme().lists, pkt), sizes)
  {
    DefaultHead();
    DefaultBounds();
    hide Print, EntriesOf, DefaultText, Draws, MayDrawAll, NewFactory, Items, ListFor, DefaultScheme, Listed, Spells;
    DefaultPrinted();
    SchemeMeans(digest, DefaultScheme());
    EntriesPrintable(DefaultScheme());
    FactoryOfEntries(digest, EntriesOf(DefaultScheme()));
    forall pkt: U32
      ensures NumbersUpTo(Listed(EntriesOf(DefaultScheme()), pkt), 0xffff)
    {
      SchemeBounded(DefaultScheme(), pkt, 1000);
    }
  }
}
