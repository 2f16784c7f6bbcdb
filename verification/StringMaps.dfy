/** The settings text: `key=value` lines, src/core/string_map.rs. */
module StringMaps {
  import opened Options
  import opened Texts

  type StringMap = map<Text, Text>

  function Line(key: Text, value: Text): Text
  {
    key + [EQUALS] + value
  }

  /** `to_bytes`, for one order in which the hash map may hand out its entries. */
  function Print(order: seq<(Text, Text)>): Text
  {
    if order == [] then []
    else if |order| == 1 then Line(order[0].0, order[0].1)
    else Line(order[0].0, order[0].1) + [LF] + Print(order[1..])
  }

  function LinesOf(order: seq<(Text, Text)>): (lines: seq<Text>)
    ensures |lines| == |order|
    ensures forall i :: 0 <= i < |order| ==> lines[i] == order[i].0 + Ascii("=") + order[i].1
  {
    seq(|order|, i requires 0 <= i < |order| => order[i].0 + Ascii("=") + order[i].1)
  }

  /** The text is the lines `key=value`, with a line feed between two of them. */
  lemma {:induction false} PrintIsLines(order: seq<(Text, Text)>)
    ensures Print(order) == Join(LinesOf(order), Ascii("\n")[0])
  {
    if order != [] {
      assert Ascii("=") == [EQUALS];
      assert LinesOf(order)[1..] == LinesOf(order[1..]);
      PrintIsLines(order[1..]);
    }
  }

  /** The map a list of entries denotes; later entries win. */
  function MapOf(order: seq<(Text, Text)>): StringMap
  {
    if order == [] then map[]
    else map[order[0].0 := order[0].1] + MapOf(order[1..])
  }

  /** `order` is one of the orders in which a hash map equal to `m` may be iterated. */
  ghost predicate IterationOrder(order: seq<(Text, Text)>, m: StringMap)
  {
    && MapOf(order) == m
    && forall i, j :: 0 <= i < j < |order| ==> order[i].0 != order[j].0
  }

  /** The entries the lines of a text hold; lines without `=` are skipped. */
  function Entries(lines: seq<Text>): seq<(Text, Text)>
  {
    if lines == [] then []
    else
      match SplitOnce(lines[0], EQUALS)
      case None => Entries(lines[1..])
      case Some(entry) => [entry] + Entries(lines[1..])
  }

  /** The meaning of `from_bytes`. */
  function Read(data: Text): StringMap
  {
    MapOf(Entries(Lines(data)))
  }

  lemma InsertBefore(m: StringMap, key: Text, value: Text, later: StringMap)
    ensures m + (map[key := value] + later) == m[key := value] + later
  {
  }

  /** `from_bytes`, as the loop it is. */
  method FromBytes(data: Text) returns (m: StringMap)
    ensures m == Read(data)
  {
    m := map[];
    var lines := Lines(data);
    for i := 0 to |lines|
      invariant m + MapOf(Entries(lines[i..])) == Read(data)
    {
      var rest := lines[i..];
      assert rest[1..] == lines[i + 1..];
      match SplitOnce(lines[i], EQUALS) {
        case None =>
        case Some(entry) =>
          assert Entries(rest) == [entry] + Entries(rest[1..]);
          InsertBefore(m, entry.0, entry.1, MapOf(Entries(rest[1..])));
          m := m[entry.0 := entry.1];
      }
    }
  }

  /** Entries the text format can carry in any position. */
  ghost predicate Printable(key: Text, value: Text)
  {
    && EQUALS !in key && LF !in key
    && LF !in value && StripCr(value) == value
  }

  lemma LineReads(key: Text, value: Text)
    requires Printable(key, value)
    ensures LF !in Line(key, value)
    ensures StripCr(Line(key, value)) == Line(key, value)
    ensures SplitOnce(Line(key, value), EQUALS) == Some((key, value))
  {
    SplitOnceFirst(key, EQUALS, value);
  }

  lemma EntriesCons(line: Text, lines: seq<Text>)
    ensures Entries([line] + lines)
         == (match SplitOnce(line, EQUALS) case None => [] case Some(entry) => [entry]) + Entries(lines)
  {
    assert ([line] + lines)[1..] == lines;
  }

  /** Printed entries are read back, whatever order they were printed in. */
  lemma {:induction false} ReadPrint(order: seq<(Text, Text)>)
    requires forall i :: 0 <= i < |order| ==> Printable(order[i].0, order[i].1)
    ensures Entries(Lines(Print(order))) == order
  {
    if order != [] {
      assert order == [order[0]] + order[1..];
      var line := Line(order[0].0, order[0].1);
      LineReads(order[0].0, order[0].1);
      if |order| == 1 {
        assert Entries([line]) == [order[0]] + Entries([]);
      } else {
        ReadPrint(order[1..]);
        LinesCons(line, Print(order[1..]));
        EntriesCons(line, Lines(Print(order[1..])));
      }
    }
  }

  /** A line without `=` says nothing, and a carriage return in front of the line feed is no part of
      the value. */
  lemma LinesTolerated(line: Text, rest: Text)
    requires LF !in line && StripCr(line) == line
    ensures EQUALS !in line ==> Read(line + [LF] + rest) == Read(rest)
    ensures Read(line + [CR] + [LF] + rest) == Read(line + [LF] + rest)
  {
    hide Lines, StripCr, MapOf;
    LinesCons(line, rest);
    LinesCrLf(line, rest);
    EntriesCons(line, Lines(rest));
    assert [] + Entries(Lines(rest)) == Entries(Lines(rest));
  }

  lemma {:induction false} OrderEntry(order: seq<(Text, Text)>, m: StringMap, i: nat)
    requires IterationOrder(order, m) && i < |order|
    ensures order[i].0 in m && m[order[i].0] == order[i].1
    decreases |order|
  {
    var rest := order[1..];
    if i > 0 {
      OrderEntry(rest, MapOf(rest), i - 1);
    } else if order[0].0 in MapOf(rest) {
      var j := OrderIndex(rest, order[0].0);
      assert false;
    }
  }

  lemma {:induction false} OrderIndex(order: seq<(Text, Text)>, key: Text) returns (j: nat)
    requires key in MapOf(order)
    ensures j < |order| && order[j].0 == key
  {
    if order[0].0 == key {
      j := 0;
    } else {
      j := OrderIndex(order[1..], key);
      j := j + 1;
    }
  }

  /** A settings map survives printing and parsing in every iteration order. */
  lemma SettingsRoundTrip(m: StringMap, order: seq<(Text, Text)>)
    requires IterationOrder(order, m)
    requires forall key :: key in m ==> Printable(key, m[key])
    ensures Read(Print(order)) == m
  {
    forall i | 0 <= i < |order|
      ensures Printable(order[i].0, order[i].1)
    {
      OrderEntry(order, m, i);
    }
    ReadPrint(order);
  }
}
