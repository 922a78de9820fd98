/**
 The type-tagged, length-prefixed encoding behind deterministic identities, and
 a decoder that recovers every encoded value up to mapping order.
 */
module Encoding {
  import opened Outcomes

  type byte = x: int | 0 <= x < 256

  type Bytes = seq<byte>

  /** Values the encoder distinguishes. Texts, hexadecimal floats and calendar
      times appear as the bytes of their printed form. */
  datatype Value =
    | Null
    | Enum(origin: Bytes, qualname: Bytes, member: Value)
    | Bool(truth: bool)
    | Int(number: int)
    | Float(hex: Bytes)
    | Str(utf8: Bytes)
    | Raw(raw: Bytes)
    | Uuid(uuid: Bytes)
    | DateTime(iso: Bytes)
    | Date(iso: Bytes)
    | Tuple(items: Items)
    | List(items: Items)
    | Mapping(entries: Entries)
    | Unsupported

  datatype Items = NoItems | Item(head: Value, tail: Items)

  /** A mapping's items in insertion order. */
  datatype Entries = NoEntries | Entry(key: Value, value: Value, tail: Entries)

  datatype Fault = TypeError | OverflowError

  // ------------------------------------------------------------------ numbers

  function Power(k: nat): nat {
    if k == 0 then 1 else 256 * Power(k - 1)
  }

  /** The low k bytes of n, most significant first. */
  function BigEndian(n: nat, k: nat): (b: Bytes)
    ensures |b| == k
  {
    if k == 0 then [] else BigEndian(n / 256, k - 1) + [n % 256]
  }

  function FromBigEndian(b: Bytes): nat {
    if b == [] then 0 else 256 * FromBigEndian(b[..|b| - 1]) + b[|b| - 1]
  }

  lemma {:induction false} BigEndianRoundTrip(n: nat, k: nat)
    requires n < Power(k)
    ensures FromBigEndian(BigEndian(n, k)) == n
  {
    if k > 0 {
      DropsOneByte(n, Power(k - 1));
      BigEndianRoundTrip(n / 256, k - 1);
      OneByteMore(BigEndian(n / 256, k - 1), n % 256);
    }
  }

  lemma OneByteMore(b: Bytes, low: byte)
    ensures FromBigEndian(b + [low]) == 256 * FromBigEndian(b) + low
  {
    assert (b + [low])[..|b|] == b;
  }

  lemma DropsOneByte(n: nat, bound: nat)
    requires n < 256 * bound
    ensures n / 256 < bound && 256 * (n / 256) + n % 256 == n
  {
  }

  function Digits(n: nat): (b: Bytes)
    ensures |b| >= 1 && 48 <= b[0] < 58
  {
    if n < 10 then [48 + n] else Digits(n / 10) + [48 + n % 10]
  }

  function FromDigits(b: Bytes): int {
    if b == [] then 0 else 10 * FromDigits(b[..|b| - 1]) + b[|b| - 1] - 48
  }

  lemma {:induction false} DigitsRoundTrip(n: nat)
    ensures FromDigits(Digits(n)) == n
  {
    var b := Digits(n);
    if n < 10 {
      assert b[..0] == [];
    } else {
      assert b[..|b| - 1] == Digits(n / 10);
      DigitsRoundTrip(n / 10);
    }
  }

  /** Decimal text of an integer. */
  function Decimal(n: int): Bytes {
    if n < 0 then [45] + Digits(-n) else Digits(n)
  }

  function FromDecimal(b: Bytes): int {
    if b != [] && b[0] == 45 then -FromDigits(b[1..]) else FromDigits(b)
  }

  lemma DecimalRoundTrip(n: int)
    ensures FromDecimal(Decimal(n)) == n
  {
    if n < 0 {
      assert Decimal(n)[1..] == Digits(-n);
      DigitsRoundTrip(-n);
    } else {
      DigitsRoundTrip(n);
    }
  }

  // -------------------------------------------------------------------- sorting

  type Pair = (Bytes, Bytes)

  /** Byte strings in lexicographic order. */
  predicate Leq(a: Bytes, b: Bytes) {
    a == [] || (b != [] && (a[0] < b[0] || (a[0] == b[0] && Leq(a[1..], b[1..]))))
  }

  lemma {:induction false} LeqTotal(a: Bytes, b: Bytes)
    ensures Leq(a, b) || Leq(b, a)
    ensures Leq(a, b) && Leq(b, a) ==> a == b
  {
    if a != [] && b != [] && a[0] == b[0] {
      LeqTotal(a[1..], b[1..]);
      assert a == [a[0]] + a[1..] && b == [b[0]] + b[1..];
    }
  }

  lemma {:induction false} LeqTransitive(a: Bytes, b: Bytes, c: Bytes)
    requires Leq(a, b) && Leq(b, c)
    ensures Leq(a, c)
  {
    if a != [] && a[0] == b[0] && b[0] == c[0] {
      LeqTransitive(a[1..], b[1..], c[1..]);
    }
  }

  /** Stable insertion by key bytes. */
  function Insert(p: Pair, ps: seq<Pair>): seq<Pair> {
    if ps == [] || Leq(p.0, ps[0].0) then [p] + ps else [ps[0]] + Insert(p, ps[1..])
  }

  function Sort(ps: seq<Pair>): seq<Pair> {
    if ps == [] then [] else Insert(ps[0], Sort(ps[1..]))
  }

  function Join(ps: seq<Pair>): Bytes {
    if ps == [] then [] else ps[0].0 + ps[0].1 + Join(ps[1..])
  }

  // ------------------------------------------------------------------- encoding

  function Tag(v: Value): byte {
    match v
    case Null => 'n' as int
    case Enum(_, _, _) => 'e' as int
    case Bool(_) => 'b' as int
    case Int(_) => 'i' as int
    case Float(_) => 'f' as int
    case Str(_) => 's' as int
    case Raw(_) => 'y' as int
    case Uuid(_) => 'u' as int
    case DateTime(_) => 'd' as int
    case Date(_) => 'D' as int
    case Tuple(_) => 't' as int
    case List(_) => 'l' as int
    case Mapping(_) => 'm' as int
    case Unsupported => 0
  }

  function Framed(tag: byte, payload: Bytes): Bytes {
    [tag] + BigEndian(|payload|, 8) + payload
  }

  function Payload(v: Value): Bytes {
    match v
    case Null => []
    case Enum(o, q, m) => Framed('s' as int, o) + Framed('s' as int, q) + Framed(Tag(m), Payload(m))
    case Bool(b) => if b then [49] else [48]
    case Int(n) => Decimal(n)
    case Float(hex) => hex
    case Str(utf8) => utf8
    case Raw(raw) => raw
    case Uuid(uuid) => uuid
    case DateTime(iso) => iso
    case Date(iso) => iso
    case Tuple(items) => BigEndian(Count(items), 8) + FrameAll(items)
    case List(items) => BigEndian(Count(items), 8) + FrameAll(items)
    case Mapping(es) => BigEndian(Size(es), 8) + Join(Sort(Pairs(es)))
    case Unsupported => []
  }

  function Frame(v: Value): Bytes {
    Framed(Tag(v), Payload(v))
  }

  function FrameAll(items: Items): Bytes {
    match items
    case NoItems => []
    case Item(v, rest) => Framed(Tag(v), Payload(v)) + FrameAll(rest)
  }

  function Pairs(es: Entries): seq<Pair> {
    match es
    case NoEntries => []
    case Entry(k, v, rest) => [(Framed(Tag(k), Payload(k)), Framed(Tag(v), Payload(v)))] + Pairs(rest)
  }

  function Count(items: Items): nat {
    match items
    case NoItems => 0
    case Item(_, rest) => 1 + Count(rest)
  }

  function Size(es: Entries): nat {
    match es
    case NoEntries => 0
    case Entry(_, _, rest) => 1 + Size(rest)
  }

  /** A length that eight bytes cannot hold. */
  function LengthFault(n: nat): Option<Fault> {
    if n < Power(8) then None else Some(OverflowError)
  }

  /** Eight bytes hold every length below two to the sixty-fourth, and no other. */
  lemma LengthExactly(n: nat)
    ensures LengthFault(n).None? <==> n < 18446744073709551616
    ensures LengthFault(n).Some? ==> LengthFault(n) == Some(OverflowError)
  {
    assert Power(1) == 256;
    assert Power(2) == 65536;
    assert Power(4) == 256 * (256 * Power(2)) == 4294967296;
    assert Power(6) == 256 * (256 * Power(4)) == 281474976710656;
    assert Power(8) == 256 * (256 * Power(6));
  }

  function First(a: Option<Fault>, b: Option<Fault>): Option<Fault> {
    if a.Some? then a else b
  }

  /** The tag byte of every kind of value. */
  lemma TagBytes(v: Value)
    ensures v != Unsupported ==> |Frame(v)| == 9 + |Payload(v)| && Frame(v)[9..] == Payload(v)
    ensures v.Null? ==> Frame(v)[0] == 110
    ensures v.Enum? ==> Frame(v)[0] == 101
    ensures v.Bool? ==> Frame(v)[0] == 98
    ensures v.Int? ==> Frame(v)[0] == 105
    ensures v.Float? ==> Frame(v)[0] == 102
    ensures v.Str? ==> Frame(v)[0] == 115
    ensures v.Raw? ==> Frame(v)[0] == 121
    ensures v.Uuid? ==> Frame(v)[0] == 117
    ensures v.DateTime? ==> Frame(v)[0] == 100
    ensures v.Date? ==> Frame(v)[0] == 68
    ensures v.Tuple? ==> Frame(v)[0] == 116
    ensures v.List? ==> Frame(v)[0] == 108
    ensures v.Mapping? ==> Frame(v)[0] == 109
  {
    hide Payload, BigEndian;
  }

  /** The exception encoding a value raises, if any. */
  function FrameFault(v: Value): Option<Fault> {
    First(PayloadFault(v), LengthFault(|Payload(v)|))
  }

  function PayloadFault(v: Value): Option<Fault>
    decreases v, 0
  {
    match v
    case Unsupported => Some(TypeError)
    case Enum(o, q, m) =>
      First(LengthFault(|o|), First(LengthFault(|q|), First(PayloadFault(m), LengthFault(|Payload(m)|))))
    case Tuple(items) => First(LengthFault(Count(items)), ItemsFault(items))
    case List(items) => First(LengthFault(Count(items)), ItemsFault(items))
    case Mapping(es) => First(EntriesFault(es), LengthFault(Size(es)))
    case _ => None
  }

  function ItemsFault(items: Items): Option<Fault> {
    match items
    case NoItems => None
    case Item(v, rest) => First(First(PayloadFault(v), LengthFault(|Payload(v)|)), ItemsFault(rest))
  }

  function EntriesFault(es: Entries): Option<Fault> {
    match es
    case NoEntries => None
    case Entry(k, v, rest) =>
      First(First(PayloadFault(k), LengthFault(|Payload(k)|)),
            First(First(PayloadFault(v), LengthFault(|Payload(v)|)), EntriesFault(rest)))
  }

  /** Every value inside is of a kind the encoder knows. */
  predicate Supported(v: Value) {
    match v
    case Unsupported => false
    case Enum(_, _, m) => Supported(m)
    case Tuple(items) => SupportedItems(items)
    case List(items) => SupportedItems(items)
    case Mapping(es) => SupportedEntries(es)
    case _ => true
  }

  predicate SupportedItems(items: Items) {
    match items
    case NoItems => true
    case Item(v, rest) => Supported(v) && SupportedItems(rest)
  }

  predicate SupportedEntries(es: Entries) {
    match es
    case NoEntries => true
    case Entry(k, v, rest) => Supported(k) && Supported(v) && SupportedEntries(rest)
  }

  /** Encoding raises a type error only over an unknown kind of value, and always
      raises over one; over known kinds it raises nothing but an overflow. */
  lemma {:induction false} FaultKind(v: Value)
    ensures PayloadFault(v) == Some(TypeError) ==> !Supported(v)
    ensures PayloadFault(v).None? ==> Supported(v)
  {
    hide Payload, Power;
    match v
    case Enum(_, _, m) => FaultKind(m);
    case Tuple(items) => ItemsFaultKind(items);
    case List(items) => ItemsFaultKind(items);
    case Mapping(es) => EntriesFaultKind(es);
    case _ =>
  }

  lemma {:induction false} ItemsFaultKind(items: Items)
    ensures ItemsFault(items) == Some(TypeError) ==> !SupportedItems(items)
    ensures ItemsFault(items).None? ==> SupportedItems(items)
  {
    hide Payload, Power, Supported, PayloadFault;
    match items
    case NoItems =>
    case Item(v, rest) =>
      FaultKind(v);
      ItemsFaultKind(rest);
  }

  lemma {:induction false} EntriesFaultKind(es: Entries)
    ensures EntriesFault(es) == Some(TypeError) ==> !SupportedEntries(es)
    ensures EntriesFault(es).None? ==> SupportedEntries(es)
  {
    hide Payload, Power, Supported, PayloadFault;
    match es
    case NoEntries =>
    case Entry(k, v, rest) =>
      FaultKind(k);
      FaultKind(v);
      EntriesFaultKind(rest);
  }

  /** The encoding of an argument tuple. */
  function EncodeParts(parts: Items): Result<Bytes, Fault> {
    if ItemsFault(parts).Some? then Err(ItemsFault(parts).value) else Ok(FrameAll(parts))
  }

  // -------------------------------------------------------------- canonical form

  function InsertEntry(k: Value, v: Value, es: Entries): Entries {
    match es
    case NoEntries => Entry(k, v, NoEntries)
    case Entry(k2, v2, rest) =>
      if Leq(Frame(k), Frame(k2)) then Entry(k, v, es) else Entry(k2, v2, InsertEntry(k, v, rest))
  }

  /** The value with every mapping in the order of its encoded keys. */
  function Canon(v: Value): Value {
    match v
    case Enum(o, q, m) => Enum(o, q, Canon(m))
    case Tuple(items) => Tuple(CanonItems(items))
    case List(items) => List(CanonItems(items))
    case Mapping(es) => Mapping(CanonEntries(es))
    case _ => v
  }

  function CanonItems(items: Items): Items {
    match items
    case NoItems => NoItems
    case Item(v, rest) => Item(Canon(v), CanonItems(rest))
  }

  function CanonEntries(es: Entries): Entries {
    match es
    case NoEntries => NoEntries
    case Entry(k, v, rest) => InsertEntry(Canon(k), Canon(v), CanonEntries(rest))
  }

  // ---------------------------------------------------- canonical values encode alike

  lemma {:induction false} PairsOfInsert(k: Value, v: Value, es: Entries)
    ensures Pairs(InsertEntry(k, v, es)) == Insert((Frame(k), Frame(v)), Pairs(es))
    ensures Size(InsertEntry(k, v, es)) == Size(es) + 1
  {
    hide Framed, Payload, Tag, Leq;
    match es
    case NoEntries =>
    case Entry(k2, v2, rest) =>
      PairsOfInsert(k, v, rest);
      assert Pairs(es)[1..] == Pairs(rest);
  }

  predicate Sorted(ps: seq<Pair>) {
    ps == [] || (Sorted(ps[1..]) && (|ps| >= 2 ==> Leq(ps[0].0, ps[1].0)))
  }

  lemma {:induction false} InsertSorted(p: Pair, ps: seq<Pair>)
    requires Sorted(ps)
    ensures Sorted(Insert(p, ps))
  {
    if ps == [] {
      assert [p][1..] == [];
    } else if Leq(p.0, ps[0].0) {
      assert ([p] + ps)[1..] == ps;
    } else {
      InsertSorted(p, ps[1..]);
      LeqTotal(p.0, ps[0].0);
      var tail := Insert(p, ps[1..]);
      assert ([ps[0]] + tail)[1..] == tail;
    }
  }

  lemma {:induction false} SortSorted(ps: seq<Pair>)
    ensures Sorted(Sort(ps))
  {
    if ps != [] {
      SortSorted(ps[1..]);
      InsertSorted(ps[0], Sort(ps[1..]));
    }
  }

  lemma {:induction false} SortOfSorted(ps: seq<Pair>)
    requires Sorted(ps)
    ensures Sort(ps) == ps
  {
    if ps != [] {
      SortOfSorted(ps[1..]);
      assert ps == [ps[0]] + ps[1..];
    }
  }

  /** Putting mappings in canonical order changes no byte. */
  lemma {:induction false} CanonKeepsPayload(v: Value)
    ensures Payload(Canon(v)) == Payload(v) && Tag(Canon(v)) == Tag(v)
  {
    match v
    case Enum(o, q, m) => CanonKeepsPayload(m);
    case Tuple(items) => CanonItemsKeepFrames(items);
    case List(items) => CanonItemsKeepFrames(items);
    case Mapping(es) =>
      CanonEntriesSort(es);
      SortSorted(Pairs(es));
      SortOfSorted(Sort(Pairs(es)));
    case _ =>
  }

  lemma {:induction false} CanonItemsKeepFrames(items: Items)
    ensures FrameAll(CanonItems(items)) == FrameAll(items) && Count(CanonItems(items)) == Count(items)
  {
    match items
    case NoItems =>
    case Item(v, rest) =>
      CanonKeepsPayload(v);
      CanonItemsKeepFrames(rest);
  }

  lemma {:induction false} CanonEntriesSort(es: Entries)
    ensures Pairs(CanonEntries(es)) == Sort(Pairs(es)) && Size(CanonEntries(es)) == Size(es)
  {
    hide Framed, Insert, Leq;
    match es
    case NoEntries =>
    case Entry(k, v, rest) =>
      CanonKeepsPayload(k);
      CanonKeepsPayload(v);
      CanonEntriesSort(rest);
      PairsOfInsert(Canon(k), Canon(v), CanonEntries(rest));
      assert Pairs(es)[1..] == Pairs(rest);
  }

  /** Every mapping inside is in the order of its encoded keys. */
  predicate Canonical(v: Value) {
    match v
    case Enum(_, _, m) => Canonical(m)
    case Tuple(items) => CanonicalItems(items)
    case List(items) => CanonicalItems(items)
    case Mapping(es) => CanonicalEntries(es)
    case _ => true
  }

  predicate CanonicalItems(items: Items) {
    match items
    case NoItems => true
    case Item(v, rest) => Canonical(v) && CanonicalItems(rest)
  }

  predicate CanonicalEntries(es: Entries) {
    match es
    case NoEntries => true
    case Entry(k, v, rest) =>
      Canonical(k) && Canonical(v) && CanonicalEntries(rest) && (rest.Entry? ==> Leq(Frame(k), Frame(rest.key)))
  }

  lemma {:induction false} InsertCanonical(k: Value, v: Value, es: Entries)
    requires Canonical(k) && Canonical(v) && CanonicalEntries(es)
    ensures CanonicalEntries(InsertEntry(k, v, es))
  {
    hide Frame, Canonical, Leq;
    match es
    case NoEntries =>
    case Entry(k2, v2, rest) =>
      LeqTotal(Frame(k), Frame(k2));
      InsertCanonical(k, v, rest);
  }

  lemma {:induction false} CanonIsCanonical(v: Value)
    ensures Canonical(Canon(v))
  {
    match v
    case Enum(_, _, m) => CanonIsCanonical(m);
    case Tuple(items) => CanonItemsAreCanonical(items);
    case List(items) => CanonItemsAreCanonical(items);
    case Mapping(es) => CanonEntriesAreCanonical(es);
    case _ =>
  }

  lemma {:induction false} CanonItemsAreCanonical(items: Items)
    ensures CanonicalItems(CanonItems(items))
  {
    match items
    case NoItems =>
    case Item(v, rest) =>
      CanonIsCanonical(v);
      CanonItemsAreCanonical(rest);
  }

  lemma {:induction false} CanonEntriesAreCanonical(es: Entries)
    ensures CanonicalEntries(CanonEntries(es))
  {
    match es
    case NoEntries =>
    case Entry(k, v, rest) =>
      CanonIsCanonical(k);
      CanonIsCanonical(v);
      CanonEntriesAreCanonical(rest);
      InsertCanonical(Canon(k), Canon(v), CanonEntries(rest));
  }

  lemma {:induction false} CanonicalPairsSorted(es: Entries)
    requires CanonicalEntries(es)
    ensures Sorted(Pairs(es))
  {
    hide Framed, Canonical, Leq;
    match es
    case NoEntries =>
    case Entry(k, v, rest) =>
      CanonicalPairsSorted(rest);
      assert Pairs(es)[1..] == Pairs(rest);
  }

  // --------------------------------------------------------------------- decoding

  datatype Parsed<T> = Parsed(value: T, rest: Bytes)

  /** One frame's tag and payload. */
  function Unframe(b: Bytes): (r: Option<Parsed<(byte, Bytes)>>)
    ensures r.Some? ==> |r.value.value.1| + |r.value.rest| < |b|
  {
    if |b| < 9 then None
    else
      var n := FromBigEndian(b[1..9]);
      if |b| < 9 + n then None else Some(Parsed((b[0], b[9..9 + n]), b[9 + n..]))
  }

  function Decode(b: Bytes): (r: Option<Parsed<Value>>)
    ensures r.Some? ==> |r.value.rest| < |b|
    decreases |b|, 1
  {
    var f := Unframe(b);
    if f.None? then None
    else
      var v := DecodePayload(f.value.value.0, f.value.value.1);
      if v.None? then None else Some(Parsed(v.value, f.value.rest))
  }

  function DecodePayload(tag: byte, p: Bytes): Option<Value>
    decreases |p|, 2
  {
    if tag == 'n' as int then Some(Null)
    else if tag == 'b' as int then Some(Bool(p == [49]))
    else if tag == 'i' as int then Some(Int(FromDecimal(p)))
    else if tag == 'f' as int then Some(Float(p))
    else if tag == 's' as int then Some(Str(p))
    else if tag == 'y' as int then Some(Raw(p))
    else if tag == 'u' as int then Some(Uuid(p))
    else if tag == 'd' as int then Some(DateTime(p))
    else if tag == 'D' as int then Some(Date(p))
    else if tag == 'e' as int then DecodeEnum(p)
    else if |p| < 8 then None
    else if tag == 't' as int then
      var items := DecodeItems(FromBigEndian(p[..8]), p[8..]);
      if items.Some? then Some(Tuple(items.value)) else None
    else if tag == 'l' as int then
      var items := DecodeItems(FromBigEndian(p[..8]), p[8..]);
      if items.Some? then Some(List(items.value)) else None
    else if tag == 'm' as int then
      var es := DecodeEntries(FromBigEndian(p[..8]), p[8..]);
      if es.Some? then Some(Mapping(es.value)) else None
    else None
  }

  function DecodeEnum(p: Bytes): Option<Value>
    decreases |p|, 0
  {
    var o := Unframe(p);
    if o.None? then None
    else
      var q := Unframe(o.value.rest);
      if q.None? then None
      else
        var m := Decode(q.value.rest);
        if m.None? then None else Some(Enum(o.value.value.1, q.value.value.1, m.value.value))
  }

  function DecodeItems(n: nat, b: Bytes): Option<Items>
    decreases |b|, 2
  {
    if n == 0 then Some(NoItems)
    else
      var v := Decode(b);
      if v.None? then None
      else
        var rest := DecodeItems(n - 1, v.value.rest);
        if rest.None? then None else Some(Item(v.value.value, rest.value))
  }

  function DecodeEntries(n: nat, b: Bytes): Option<Entries>
    decreases |b|, 2
  {
    if n == 0 then Some(NoEntries)
    else
      var k := Decode(b);
      if k.None? then None
      else
        var v := Decode(k.value.rest);
        if v.None? then None
        else
          var rest := DecodeEntries(n - 1, v.value.rest);
          if rest.None? then None else Some(Entry(k.value.value, v.value.value, rest.value))
  }

  // ------------------------------------------------------------- decoding inverts

  lemma UnframeFramed(tag: byte, p: Bytes, rest: Bytes)
    requires |p| < Power(8)
    ensures Unframe(Framed(tag, p) + rest) == Some(Parsed((tag, p), rest))
  {
    var b := Framed(tag, p) + rest;
    var header := BigEndian(|p|, 8);
    assert b == [tag] + header + p + rest;
    assert b[1..9] == header;
    BigEndianRoundTrip(|p|, 8);
    assert b[9..9 + |p|] == p && b[9 + |p|..] == rest;
  }

  lemma CountPrefix(n: nat, b: Bytes)
    requires n < Power(8)
    ensures var p := BigEndian(n, 8) + b; FromBigEndian(p[..8]) == n && p[8..] == b
  {
    BigEndianRoundTrip(n, 8);
    assert (BigEndian(n, 8) + b)[..8] == BigEndian(n, 8);
  }

  /** A canonical value whose lengths fit is decoded from its frame. */
  lemma {:induction false} DecodeFrame(v: Value, rest: Bytes)
    requires FrameFault(v).None? && Canonical(v)
    ensures Decode(Frame(v) + rest) == Some(Parsed(v, rest))
    decreases v, 2
  {
    UnframeFramed(Tag(v), Payload(v), rest);
    DecodeOwnPayload(v);
    hide Framed, Payload, DecodePayload, Unframe;
  }

  lemma {:induction false} DecodeOwnPayload(v: Value)
    requires PayloadFault(v).None? && Canonical(v)
    ensures DecodePayload(Tag(v), Payload(v)) == Some(v)
    decreases v, 1
  {
    hide DecodeEnum, DecodeItems, DecodeEntries, FromBigEndian, FromDecimal, Decimal, BigEndian, Power, Framed, FrameAll, Sort, Join, Pairs;
    match v
    case Int(n) => DecimalRoundTrip(n);
    case Enum(o, q, m) => DecodeOwnEnum(o, q, m);
    case Tuple(items) =>
      CountPrefix(Count(items), FrameAll(items));
      DecodeOwnItems(items);
    case List(items) =>
      CountPrefix(Count(items), FrameAll(items));
      DecodeOwnItems(items);
    case Mapping(es) =>
      CanonicalPairsSorted(es);
      SortOfSorted(Pairs(es));
      CountPrefix(Size(es), Join(Pairs(es)));
      DecodeOwnEntries(es);
    case _ =>
  }

  lemma {:induction false} DecodeOwnEnum(o: Bytes, q: Bytes, m: Value)
    requires PayloadFault(Enum(o, q, m)).None? && Canonical(m)
    ensures DecodeEnum(Payload(Enum(o, q, m))) == Some(Enum(o, q, m))
    decreases m, 3
  {
    var last := Frame(m);
    var tail := Framed('s' as int, q) + last;
    assert Payload(Enum(o, q, m)) == Framed('s' as int, o) + tail;
    assert last == last + [];
    UnframeFramed('s' as int, o, tail);
    UnframeFramed('s' as int, q, last);
    DecodeFrame(m, []);
    hide Framed, Payload, Decode, Unframe;
  }

  lemma {:induction false} DecodeOwnItems(items: Items)
    requires ItemsFault(items).None? && CanonicalItems(items)
    ensures DecodeItems(Count(items), FrameAll(items)) == Some(items)
    decreases items, 3
  {
    hide Framed, Payload, Decode, PayloadFault, Canonical;
    match items
    case NoItems =>
    case Item(v, rest) =>
      DecodeFrame(v, FrameAll(rest));
      DecodeOwnItems(rest);
  }

  lemma JoinEntry(k: Value, v: Value, rest: Entries)
    ensures Join(Pairs(Entry(k, v, rest))) == Frame(k) + (Frame(v) + Join(Pairs(rest)))
  {
    hide Framed, Payload;
    assert Pairs(Entry(k, v, rest))[1..] == Pairs(rest);
  }

  lemma {:induction false} DecodeOwnEntries(es: Entries)
    requires EntriesFault(es).None? && CanonicalEntries(es)
    ensures DecodeEntries(Size(es), Join(Pairs(es))) == Some(es)
    decreases es, 3
  {
    hide Framed, Payload, Decode, PayloadFault, Canonical, Leq;
    match es
    case NoEntries =>
    case Entry(k, v, rest) =>
      JoinEntry(k, v, rest);
      hide Pairs, Join, Frame;
      DecodeFrame(k, Frame(v) + Join(Pairs(rest)));
      DecodeFrame(v, Join(Pairs(rest)));
      DecodeOwnEntries(rest);
  }

  // -------------------------------------------------------------------- guarantees

  /** Canonical order neither adds nor removes a fault. */
  lemma {:induction false} CanonKeepsFault(v: Value)
    requires PayloadFault(v).None?
    ensures PayloadFault(Canon(v)).None?
  {
    hide Framed, Payload;
    match v
    case Enum(_, _, m) =>
      CanonKeepsFault(m);
      CanonKeepsPayload(m);
    case Tuple(items) => CanonItemsKeepFault(items); CanonItemsKeepFrames(items);
    case List(items) => CanonItemsKeepFault(items); CanonItemsKeepFrames(items);
    case Mapping(es) => CanonEntriesKeepFault(es); CanonEntriesSort(es);
    case _ =>
  }

  lemma {:induction false} CanonItemsKeepFault(items: Items)
    requires ItemsFault(items).None?
    ensures ItemsFault(CanonItems(items)).None?
  {
    hide Framed, Payload, PayloadFault;
    match items
    case NoItems =>
    case Item(v, rest) =>
      CanonKeepsFault(v);
      CanonKeepsPayload(v);
      CanonItemsKeepFault(rest);
  }

  lemma {:induction false} InsertKeepsFault(k: Value, v: Value, es: Entries)
    requires FrameFault(k).None? && FrameFault(v).None? && EntriesFault(es).None?
    ensures EntriesFault(InsertEntry(k, v, es)).None?
  {
    hide Framed, Payload, PayloadFault, Leq;
    match es
    case NoEntries =>
    case Entry(k2, v2, rest) => InsertKeepsFault(k, v, rest);
  }

  lemma {:induction false} CanonEntriesKeepFault(es: Entries)
    requires EntriesFault(es).None?
    ensures EntriesFault(CanonEntries(es)).None?
  {
    hide Framed, Payload, PayloadFault;
    match es
    case NoEntries =>
    case Entry(k, v, rest) =>
      CanonKeepsFault(k);
      CanonKeepsPayload(k);
      CanonKeepsFault(v);
      CanonKeepsPayload(v);
      CanonEntriesKeepFault(rest);
      InsertKeepsFault(Canon(k), Canon(v), CanonEntries(rest));
  }

  /** The decoder recovers any encodable value, up to mapping order. */
  lemma DecodeRoundTrip(v: Value, rest: Bytes)
    requires FrameFault(v).None?
    ensures Decode(Frame(v) + rest) == Some(Parsed(Canon(v), rest))
  {
    CanonKeepsPayload(v);
    CanonKeepsFault(v);
    CanonIsCanonical(v);
    DecodeFrame(Canon(v), rest);
  }

  /** Two argument tuples encode to the same bytes exactly when they are equal,
      argument by argument, up to the order of mappings. */
  lemma {:induction false} EncodingIsInjective(xs: Items, ys: Items)
    requires EncodeParts(xs).Ok? && EncodeParts(ys).Ok?
    ensures EncodeParts(xs) == EncodeParts(ys) <==> CanonItems(xs) == CanonItems(ys)
  {
    CanonItemsKeepFrames(xs);
    CanonItemsKeepFrames(ys);
    if FrameAll(xs) == FrameAll(ys) {
      SameBytes(xs, ys);
    }
  }

  lemma {:induction false} SameBytes(xs: Items, ys: Items)
    requires ItemsFault(xs).None? && ItemsFault(ys).None? && FrameAll(xs) == FrameAll(ys)
    ensures CanonItems(xs) == CanonItems(ys)
  {
    hide Payload, PayloadFault, Canon, Decode;
    if xs.Item? && ys.Item? {
      DecodeRoundTrip(xs.head, FrameAll(xs.tail));
      DecodeRoundTrip(ys.head, FrameAll(ys.tail));
      SameBytes(xs.tail, ys.tail);
    }
  }

  // ---------------------------------------------------------- insertion order

  function Keyed(es: Entries): multiset<(Value, Value)> {
    match es
    case NoEntries => multiset{}
    case Entry(k, v, rest) => multiset{(k, v)} + Keyed(rest)
  }

  /** No two keys encode alike. */
  predicate DistinctKeys(es: Entries) {
    match es
    case NoEntries => true
    case Entry(k, _, rest) => !HasKey(rest, k) && DistinctKeys(rest)
  }

  predicate HasKey(es: Entries, k: Value) {
    match es
    case NoEntries => false
    case Entry(k2, _, rest) => Frame(k2) == Frame(k) || HasKey(rest, k)
  }

  function Without(es: Entries, k: Value, v: Value): Entries {
    match es
    case NoEntries => NoEntries
    case Entry(k2, v2, rest) => if (k2, v2) == (k, v) then rest else Entry(k2, v2, Without(rest, k, v))
  }

  lemma {:induction false} InsertsCommute(a: Pair, b: Pair, ps: seq<Pair>)
    requires a.0 != b.0
    ensures Insert(a, Insert(b, ps)) == Insert(b, Insert(a, ps))
  {
    LeqTotal(a.0, b.0);
    if ps == [] {
      assert [b][1..] == [] && [a][1..] == [];
    } else {
      InsertsCommute(a, b, ps[1..]);
      LeqTotal(a.0, ps[0].0);
      LeqTotal(b.0, ps[0].0);
      InsertsCommuteHere(a, b, ps);
    }
  }

  lemma InsertsCommuteHere(a: Pair, b: Pair, ps: seq<Pair>)
    requires ps != [] && a.0 != b.0 && Insert(a, Insert(b, ps[1..])) == Insert(b, Insert(a, ps[1..]))
    ensures Insert(a, Insert(b, ps)) == Insert(b, Insert(a, ps))
  {
    if Leq(a.0, ps[0].0) && Leq(b.0, ps[0].0) {
      assert ([a] + ps)[1..] == ps && ([b] + ps)[1..] == ps;
      LeqTotal(a.0, b.0);
    } else if Leq(a.0, ps[0].0) {
      InsertPast(a, b, ps);
    } else if Leq(b.0, ps[0].0) {
      InsertPast(b, a, ps);
    } else {
      assert ([ps[0]] + Insert(a, ps[1..]))[1..] == Insert(a, ps[1..]);
      assert ([ps[0]] + Insert(b, ps[1..]))[1..] == Insert(b, ps[1..]);
    }
  }

  lemma InsertPast(a: Pair, b: Pair, ps: seq<Pair>)
    requires ps != [] && Leq(a.0, ps[0].0) && !Leq(b.0, ps[0].0)
    ensures Insert(a, Insert(b, ps)) == Insert(b, Insert(a, ps))
  {
    LeqTotal(b.0, ps[0].0);
    if Leq(b.0, a.0) { LeqTransitive(b.0, a.0, ps[0].0); }
    assert ([a] + ps)[1..] == ps;
    assert ([ps[0]] + Insert(b, ps[1..]))[0] == ps[0];
  }

  lemma {:induction false} WithoutIsLess(es: Entries, k: Value, v: Value)
    requires (k, v) in Keyed(es) && DistinctKeys(es)
    ensures Keyed(es) == multiset{(k, v)} + Keyed(Without(es, k, v))
    ensures DistinctKeys(Without(es, k, v)) && (forall x :: HasKey(Without(es, k, v), x) ==> HasKey(es, x))
    ensures Sort(Pairs(es)) == Insert((Frame(k), Frame(v)), Sort(Pairs(Without(es, k, v))))
    ensures Size(es) == Size(Without(es, k, v)) + 1
  {
    hide Framed, Payload, Leq, Insert;
    var Entry(k2, v2, rest) := es;
    assert Pairs(es)[1..] == Pairs(rest);
    if (k2, v2) != (k, v) {
      WithoutIsLess(rest, k, v);
      KeyedHasKey(rest, k, v, k2);
      var less := Without(rest, k, v);
      assert Pairs(Entry(k2, v2, less))[1..] == Pairs(less);
      InsertsCommute((Frame(k2), Frame(v2)), (Frame(k), Frame(v)), Sort(Pairs(less)));
    }
  }

  lemma {:induction false} KeyedHasKey(es: Entries, k: Value, v: Value, other: Value)
    requires (k, v) in Keyed(es) && !HasKey(es, other)
    ensures HasKey(es, k) && Frame(k) != Frame(other)
  {
    hide Frame;
    var Entry(k2, v2, rest) := es;
    if (k2, v2) != (k, v) { KeyedHasKey(rest, k, v, other); }
  }

  lemma FirstKeyed(es: Entries)
    ensures es.Entry? ==> (es.key, es.value) in Keyed(es)
  {
  }

  /** The order in which a mapping was filled never reaches the bytes. */
  lemma {:induction false} MappingOrderIrrelevant(xs: Entries, ys: Entries)
    requires Keyed(xs) == Keyed(ys) && DistinctKeys(xs) && DistinctKeys(ys)
    ensures Frame(Mapping(xs)) == Frame(Mapping(ys))
  {
    SortedAlike(xs, ys);
  }

  lemma {:induction false} SortedAlike(xs: Entries, ys: Entries)
    requires Keyed(xs) == Keyed(ys) && DistinctKeys(xs) && DistinctKeys(ys)
    ensures Sort(Pairs(xs)) == Sort(Pairs(ys)) && Size(xs) == Size(ys)
  {
    hide Framed, Payload, Insert;
    match xs
    case NoEntries => FirstKeyed(ys);
    case Entry(k, v, rest) =>
      assert (k, v) in Keyed(ys);
      WithoutIsLess(ys, k, v);
      assert Keyed(rest) == Keyed(xs) - multiset{(k, v)};
      assert Keyed(Without(ys, k, v)) == Keyed(ys) - multiset{(k, v)};
      SortedAlike(rest, Without(ys, k, v));
      assert Pairs(xs)[1..] == Pairs(rest);
  }

  // -------------------------------------------------- what order does reach

  /** The values stored under keys that encode as `key`, in insertion order. */
  function Under(ps: seq<Pair>, key: Bytes): seq<Bytes> {
    if ps == [] then [] else (if ps[0].0 == key then [ps[0].1] else []) + Under(ps[1..], key)
  }

  /** Each encoded key has the same values, in the same order. */
  ghost predicate SameUnder(ps: seq<Pair>, qs: seq<Pair>) {
    forall key: Bytes :: Under(ps, key) == Under(qs, key)
  }

  lemma {:induction false} InsertUnder(p: Pair, ps: seq<Pair>, key: Bytes)
    ensures Under(Insert(p, ps), key) == Under([p] + ps, key)
  {
    assert ([p] + ps)[1..] == ps;
    if ps != [] && !Leq(p.0, ps[0].0) {
      InsertUnder(p, ps[1..], key);
      assert ([p] + ps[1..])[1..] == ps[1..];
      assert ([ps[0]] + Insert(p, ps[1..]))[1..] == Insert(p, ps[1..]);
      LeqTotal(p.0, ps[0].0);
    }
  }

  /** Sorting is stable. */
  lemma {:induction false} SortUnder(ps: seq<Pair>, key: Bytes)
    ensures Under(Sort(ps), key) == Under(ps, key)
  {
    hide Leq;
    if ps != [] {
      SortUnder(ps[1..], key);
      InsertUnder(ps[0], Sort(ps[1..]), key);
      assert ([ps[0]] + Sort(ps[1..]))[1..] == Sort(ps[1..]);
    }
  }

  /** A key that has values stands no earlier than the first pair. */
  lemma {:induction false} FirstIsLeast(ps: seq<Pair>, key: Bytes)
    requires Sorted(ps) && Under(ps, key) != []
    ensures ps != [] && Leq(ps[0].0, key)
  {
    LeqTotal(ps[0].0, ps[0].0);
    if ps[0].0 != key {
      FirstIsLeast(ps[1..], key);
      LeqTransitive(ps[0].0, ps[1].0, key);
    }
  }

  lemma UnderFirst(ps: seq<Pair>, key: Bytes)
    requires ps != []
    ensures ps[0].0 == key ==> Under(ps, key) != [] && Under(ps, key)[0] == ps[0].1 && Under(ps[1..], key) == Under(ps, key)[1..]
    ensures ps[0].0 != key ==> Under(ps[1..], key) == Under(ps, key)
  {
  }

  lemma SameFirst(ps: seq<Pair>, qs: seq<Pair>)
    requires Sorted(ps) && Sorted(qs) && SameUnder(ps, qs)
    requires ps != []
    ensures qs != [] && ps[0] == qs[0]
  {
    hide Leq, Sorted;
    UnderFirst(ps, ps[0].0);
    assert Under(qs, ps[0].0) == Under(ps, ps[0].0);
    FirstIsLeast(qs, ps[0].0);
    UnderFirst(qs, qs[0].0);
    assert Under(ps, qs[0].0) == Under(qs, qs[0].0);
    FirstIsLeast(ps, qs[0].0);
    LeqTotal(ps[0].0, qs[0].0);
  }

  /** Sorted pairs are determined by the values under each key. */
  lemma {:induction false} SortedByUnder(ps: seq<Pair>, qs: seq<Pair>)
    requires Sorted(ps) && Sorted(qs) && SameUnder(ps, qs)
    ensures ps == qs
  {
    if ps != [] {
      SameFirst(ps, qs);
      forall key: Bytes ensures Under(ps[1..], key) == Under(qs[1..], key) {
        UnderFirst(ps, key);
        UnderFirst(qs, key);
        assert Under(ps, key) == Under(qs, key);
      }
      SortedByUnder(ps[1..], qs[1..]);
      assert ps == [ps[0]] + ps[1..] && qs == [qs[0]] + qs[1..];
    } else if qs != [] {
      SameFirst(qs, ps);
    }
  }

  lemma SortsAlike(ps: seq<Pair>, qs: seq<Pair>)
    ensures Sort(ps) == Sort(qs) <==> SameUnder(ps, qs)
  {
    SortSorted(ps);
    SortSorted(qs);
    hide Sorted, Sort, Under;
    if SameUnder(ps, qs) {
      forall key: Bytes ensures Under(Sort(ps), key) == Under(Sort(qs), key) {
        SortUnder(ps, key);
        SortUnder(qs, key);
        assert Under(ps, key) == Under(qs, key);
      }
      SortedByUnder(Sort(ps), Sort(qs));
    }
    if Sort(ps) == Sort(qs) {
      forall key: Bytes ensures Under(ps, key) == Under(qs, key) {
        SortUnder(ps, key);
        SortUnder(qs, key);
      }
    }
  }

  lemma {:induction false} PairsSize(es: Entries)
    ensures |Pairs(es)| == Size(es)
  {
    hide Framed, Payload;
    match es
    case NoEntries =>
    case Entry(_, _, rest) => PairsSize(rest);
  }

  /** Two mappings encode alike exactly when each encoded key has the same values
      in the same order: where keys encode differently no order reaches the
      bytes, and among keys that encode alike all of it does. */
  lemma MappingsEncodeAlike(xs: Entries, ys: Entries)
    requires FrameFault(Mapping(xs)).None? && FrameFault(Mapping(ys)).None?
    ensures Frame(Mapping(xs)) == Frame(Mapping(ys)) <==> SameUnder(Pairs(xs), Pairs(ys))
  {
    SortsAlike(Pairs(xs), Pairs(ys));
    CanonEntriesSort(xs);
    CanonEntriesSort(ys);
    if Frame(Mapping(xs)) == Frame(Mapping(ys)) {
      DecodeRoundTrip(Mapping(xs), []);
      DecodeRoundTrip(Mapping(ys), []);
    } else if Sort(Pairs(xs)) == Sort(Pairs(ys)) {
      PairsSize(xs);
      PairsSize(ys);
      PairsSize(CanonEntries(xs));
      PairsSize(CanonEntries(ys));
    }
  }

  const Nan: Value := Float([110, 97, 110])

  /** Both under the key NaN, in this order. */
  function TwoNans(v: Value, w: Value): Entries {
    Entry(Nan, v, Entry(Nan, w, NoEntries))
  }

  /** Two NaN keys are two keys of one dictionary and encode alike: the order in
      which they were filled reaches the bytes exactly when their values differ. */
  lemma NanKeysKeepOrder(v: Value, w: Value)
    requires FrameFault(Mapping(TwoNans(v, w))).None? && FrameFault(Mapping(TwoNans(w, v))).None?
    ensures Keyed(TwoNans(v, w)) == Keyed(TwoNans(w, v))
    ensures Frame(Mapping(TwoNans(v, w))) == Frame(Mapping(TwoNans(w, v))) <==> Frame(v) == Frame(w)
  {
    MappingsEncodeAlike(TwoNans(v, w), TwoNans(w, v));
    NansKeyed(v, w);
    NansKeyed(w, v);
    hide Frame, FrameFault, TwoNans, Under;
    forall key: Bytes ensures Under(Pairs(TwoNans(v, w)), key) == if key == Frame(Nan) then [Frame(v), Frame(w)] else [] {
      UnderNans(v, w, key);
    }
    forall key: Bytes ensures Under(Pairs(TwoNans(w, v)), key) == if key == Frame(Nan) then [Frame(w), Frame(v)] else [] {
      UnderNans(w, v, key);
    }
    if SameUnder(Pairs(TwoNans(v, w)), Pairs(TwoNans(w, v))) {
      assert Under(Pairs(TwoNans(v, w)), Frame(Nan)) == Under(Pairs(TwoNans(w, v)), Frame(Nan));
      assert [Frame(v), Frame(w)][0] == [Frame(w), Frame(v)][0];
    }
  }

  lemma NansKeyed(v: Value, w: Value)
    ensures Keyed(TwoNans(v, w)) == multiset{(Nan, v), (Nan, w)}
  {
    assert Keyed(Entry(Nan, w, NoEntries)) == multiset{(Nan, w)};
  }

  lemma UnderNans(v: Value, w: Value, key: Bytes)
    ensures Under(Pairs(TwoNans(v, w)), key) == if key == Frame(Nan) then [Frame(v), Frame(w)] else []
  {
    hide Framed, Payload;
    var second: seq<Pair> := [(Frame(Nan), Frame(w))];
    var both := [(Frame(Nan), Frame(v))] + second;
    assert Pairs(Entry(Nan, w, NoEntries)) == second;
    assert Pairs(TwoNans(v, w)) == both;
    assert both[1..] == second && second[1..] == [];
    assert Under(second, key) == if key == Frame(Nan) then [Frame(w)] else [];
  }
}
