/** Padding schemes: src/core/padding.rs. */
module Padding {
  import opened Bytes
  import opened Options
  import opened Texts
  import opened StringMaps

  const CHECK_MARK: int := -1

  /** `md5` is the lower-case hexadecimal MD5 digest of the raw scheme. */
  datatype Factory = Factory(scheme: StringMap, raw: Text, stop: U32, md5: Text)

  function StopKey(): Text { Ascii("stop") }

  /** `PaddingFactory::new`, with the digest function left abstract. */
  function NewFactory(digest: Text -> Text, raw: Text): (r: Option<Factory>)
    ensures r.Some? ==> r.value.raw == raw != [] && r.value.md5 == digest(raw)
  {
    var scheme := Read(raw);
    if StopKey() !in scheme then None
    else
      match ParseUnsigned(scheme[StopKey()], 0xffff_ffff)
      case None => None
      case Some(stop) => Some(Factory(scheme, raw, stop, digest(raw)))
  }

  /** One item of a packet's size list. */
  datatype Item = Check | Range(low: int, high: int) | Ignored

  function ParseItem(t: Text): (item: Item)
    ensures item.Range? ==> 0 < item.low <= item.high <= I64_MAX
  {
    if t == Ascii("c") then Check
    else
      match SplitOnce(t, MINUS)
      case None => Ignored
      case Some((a, b)) =>
        match (ParseI64(a), ParseI64(b))
        case (Some(x), Some(y)) =>
          var low, high := if x <= y then x else y, if x <= y then y else x;
          if low > 0 then Range(low, high) else Ignored
        case _ => Ignored
  }

  /** The cast from `i64` to `i32`. */
  function AsI32(n: int): (r: int)
    ensures -0x8000_0000 <= r < 0x8000_0000
    ensures (r - n) % 0x1_0000_0000 == 0
  {
    (n + 0x8000_0000) % 0x1_0000_0000 - 0x8000_0000
  }

  /** `sizes` is a list the generator may draw for the items: nothing for an ignored item,
      the check mark for `c`, and the cast of some number in the range for a range. */
  ghost predicate Draws(items: seq<Text>, sizes: seq<int>)
  {
    if items == [] then sizes == []
    else
      var front := items[..|items| - 1];
      match ParseItem(items[|items| - 1])
      case Ignored => Draws(front, sizes)
      case Check =>
        sizes != [] && sizes[|sizes| - 1] == CHECK_MARK && Draws(front, sizes[..|sizes| - 1])
      case Range(low, high) =>
        && sizes != []
        && (exists n :: low <= n <= high && sizes[|sizes| - 1] == AsI32(n))
        && Draws(front, sizes[..|sizes| - 1])
  }

  /** The items the scheme lists for packet `pkt`. */
  function Items(scheme: StringMap, pkt: U32): seq<Text>
  {
    if Decimal(pkt) in scheme then Split(scheme[Decimal(pkt)], COMMA) else []
  }

  /** `generate_record_payload_sizes`; each random number is an arbitrary choice. */
  method GenerateRecordPayloadSizes(factory: Factory, pkt: U32) returns (sizes: seq<int>)
    ensures Draws(Items(factory.scheme, pkt), sizes)
  {
    sizes := [];
    if Decimal(pkt) in factory.scheme {
      var items := Split(factory.scheme[Decimal(pkt)], COMMA);
      for i := 0 to |items|
        invariant Draws(items[..i], sizes)
      {
        assert items[..i + 1][..i] == items[..i];
        match ParseItem(items[i]) {
          case Ignored =>
          case Check =>
            assert (sizes + [CHECK_MARK])[..|sizes|] == sizes;
            sizes := sizes + [CHECK_MARK];
          case Range(low, high) =>
            var n :| low <= n <= high;
            assert (sizes + [AsI32(n)])[..|sizes|] == sizes;
            sizes := sizes + [AsI32(n)];
        }
      }
      assert items[..|items|] == items;
    }
  }

  /** Every number of the scheme's list for this packet is at most `max`. */
  ghost predicate NumbersUpTo(items: seq<Text>, max: int)
  {
    forall i :: 0 <= i < |items| ==> ParseItem(items[i]).Range? ==> ParseItem(items[i]).high <= max
  }

  /** With scheme numbers below 2^31 the cast is harmless: every drawn size is the check mark
      or a positive number within the scheme's bound. */
  lemma {:induction false} DrawnSizes(items: seq<Text>, sizes: seq<int>, max: int)
    requires Draws(items, sizes) && NumbersUpTo(items, max) && max < 0x8000_0000
    ensures forall i :: 0 <= i < |sizes| ==> sizes[i] == CHECK_MARK || 1 <= sizes[i] <= max
  {
    if items != [] {
      var last := items[|items| - 1];
      var front := items[..|items| - 1];
      if ParseItem(last).Ignored? {
        DrawnSizes(front, sizes, max);
      } else {
        DrawnSizes(front, sizes[..|sizes| - 1], max);
      }
    }
  }

  /** Without the bound it is not harmless: 2^32 - 1 turns into the check mark. */
  lemma LargeNumberBecomesCheckMark(n: int)
    requires 0 < n <= I64_MAX
    ensures AsI32(n) == CHECK_MARK <==> n % 0x1_0000_0000 == 0xffff_ffff
  {
    assert (AsI32(n) - n) % 0x1_0000_0000 == 0;
  }
}
