/** Bounds-checked little-endian numbers and FlatBuffer tables over immutable bytes. `None` is a refusal. */
module IpcMetadata {
  import opened Options

  type Byte = x: int | 0 <= x < 256

  datatype Format = U8 | U16 | I16 | U32 | I32 | I64
  {
    function Width(): nat {
      match this
      case U8 => 1
      case U16 => 2
      case I16 => 2
      case U32 => 4
      case I32 => 4
      case I64 => 8
    }

    function Signed(): bool {
      I16? || I32? || I64?
    }
  }

  function Pow256(n: nat): (r: nat)
    ensures r > 0
  {
    if n == 0 then 1 else 256 * Pow256(n - 1)
  }

  /** Little-endian unsigned value. */
  function Unsigned(d: seq<Byte>): (r: nat)
    ensures r < Pow256(|d|)
  {
    if |d| == 0 then 0 else d[0] + 256 * Unsigned(d[1..])
  }

  /** Two's complement where the format is signed. */
  function Decode(f: Format, d: seq<Byte>): int {
    var u := Unsigned(d);
    if f.Signed() && 2 * u >= Pow256(|d|) then u - Pow256(|d|) else u
  }

  /** The bytes of a number, least significant first. */
  function LittleEndian(u: nat, n: nat): seq<Byte> {
    if n == 0 then [] else [u % 256] + LittleEndian(u / 256, n - 1)
  }

  /** The numbers a format can hold. */
  predicate InRange(f: Format, v: int) {
    if f.Signed() then 0 <= 2 * v + Pow256(f.Width()) && 2 * v < Pow256(f.Width()) else 0 <= v < Pow256(f.Width())
  }

  lemma {:induction false} BytesRoundTrip(u: nat, n: nat)
    requires u < Pow256(n)
    ensures |LittleEndian(u, n)| == n && Unsigned(LittleEndian(u, n)) == u
  {
    if n > 0 {
      BytesRoundTrip(u / 256, n - 1);
      assert LittleEndian(u, n)[1..] == LittleEndian(u / 256, n - 1);
    }
  }

  /** Every number of a format survives being written in two's complement, little-endian, and read back. */
  lemma NumberRoundTrip(f: Format, v: int)
    requires InRange(f, v)
    ensures var bytes := LittleEndian(if v < 0 then v + Pow256(f.Width()) else v, f.Width());
            |bytes| == f.Width() && Decode(f, bytes) == v
  {
    BytesRoundTrip(if v < 0 then v + Pow256(f.Width()) else v, f.Width());
  }

  predicate InBounds(d: seq<Byte>, offset: int, size: int) {
    0 <= offset <= |d| && 0 <= size <= |d| - offset
  }

  /** `_Metadata.span`. */
  function Span(d: seq<Byte>, offset: int, size: int): (r: Option<seq<Byte>>)
    ensures r.Some? <==> InBounds(d, offset, size)
    ensures r.Some? ==> |r.value| == size
  {
    if InBounds(d, offset, size) then Some(d[offset..offset + size]) else None
  }

  /** `_Metadata.number`: refused exactly when its bytes are not all inside. */
  function Number(d: seq<Byte>, offset: int, f: Format): (r: Option<int>)
    ensures r.Some? <==> InBounds(d, offset, f.Width())
    ensures r.Some? && !f.Signed() ==> r.value >= 0
  {
    match Span(d, offset, f.Width())
    case None => None
    case Some(bytes) => Some(Decode(f, bytes))
  }

  /** `_Metadata.indirect`: a strictly forward reference whose first word is inside. */
  function Indirect(d: seq<Byte>, offset: int): (r: Option<nat>)
    ensures r.Some? ==> offset < r.value && InBounds(d, r.value, 4)
  {
    match Number(d, offset, U32)
    case None => None
    case Some(n) => if n > 0 && InBounds(d, offset + n, 4) then Some(offset + n) else None
  }

  datatype Table = Table(data: seq<Byte>, offset: nat, vtable: nat, vsize: nat, size: nat)
  {
    /** The table and its vtable lie inside the metadata. */
    ghost predicate Valid() {
      && InBounds(data, offset, size) && InBounds(data, vtable, vsize)
      && 4 <= vsize <= 36 && vsize % 2 == 0 && size >= 4
    }
  }

  /** `_Table.__init__`. */
  function OpenTable(d: seq<Byte>, offset: int): (r: Option<Table>)
    ensures r.Some? ==> r.value.Valid() && r.value.data == d
  {
    match Number(d, offset, I32)
    case None => None
    case Some(back) =>
      var vtable := offset - back;
      match Number(d, vtable, U16)
      case None => None
      case Some(vsize) =>
        match Number(d, vtable + 2, U16)
        case None => None
        case Some(size) =>
          if 4 <= vsize <= 36 && vsize % 2 == 0 && size >= 4 && InBounds(d, vtable, vsize)
            && InBounds(d, offset, size) then
            Some(Table(d, offset, vtable, vsize, size))
          else None
  }

  function Root(d: seq<Byte>): (r: Option<Table>)
    ensures r.Some? ==> r.value.Valid() && r.value.data == d
  {
    match Indirect(d, 0)
    case None => None
    case Some(target) => OpenTable(d, target)
  }

  datatype Slot = Bad | Absent | At(offset: nat)

  /** `_Table.field`: present fields lie wholly inside the table. */
  function Field(t: Table, index: nat, width: nat): (r: Slot)
    requires t.Valid()
    ensures r.At? ==>
      t.offset + 4 <= r.offset && r.offset + width <= t.offset + t.size && InBounds(t.data, r.offset, width)
  {
    var slot := 4 + 2 * index;
    var relative := if slot < t.vsize then Number(t.data, t.vtable + slot, U16).value else 0;
    if relative == 0 then Absent
    else if 4 <= relative && relative + width <= t.size then At(t.offset + relative)
    else Bad
  }

  /** `_Table.number`. */
  function NumberOf(t: Table, index: nat, f: Format, default: int): Option<int>
    requires t.Valid()
  {
    match Field(t, index, f.Width())
    case Bad => None
    case Absent => Some(default)
    case At(offset) => Number(t.data, offset, f)
  }

  /** `_Table.child`. */
  function Child(t: Table, index: nat): (r: Option<Table>)
    requires t.Valid()
    ensures r.Some? ==> r.value.Valid() && r.value.data == t.data
  {
    match Field(t, index, 4)
    case At(offset) =>
      (match Indirect(t.data, offset)
       case None => None
       case Some(target) => OpenTable(t.data, target))
    case _ => None
  }

  datatype Elements = Elements(start: nat, count: nat)

  /** `_Table.vector`: every element lies inside the metadata. */
  function Vector(t: Table, index: nat, width: nat, maximum: nat): (r: Option<Elements>)
    requires t.Valid()
    ensures r.Some? ==> r.value.count <= maximum && InBounds(t.data, r.value.start, r.value.count * width)
  {
    match Field(t, index, 4)
    case Bad => None
    case Absent => Some(Elements(0, 0))
    case At(offset) =>
      match Indirect(t.data, offset)
      case None => None
      case Some(start) =>
        var count := Number(t.data, start, U32).value;
        if count <= maximum && InBounds(t.data, start + 4, count * width) then
          Some(Elements(start + 4, count))
        else
          None
  }

  /** `_Table.empty`. */
  predicate IsEmpty(t: Table, index: nat, width: nat)
    requires t.Valid()
  {
    Vector(t, index, width, 0).Some?
  }

  /** `_Table.string`: at most 4096 bytes, zero terminated, valid UTF-8. */
  function Text(t: Table, index: nat, utf8: seq<Byte> -> bool): Option<seq<Byte>>
    requires t.Valid()
  {
    match Vector(t, index, 1, 4096)
    case None => None
    case Some(v) =>
      if v.start == 0 then Some([])
      else
        var bytes := t.data[v.start..v.start + v.count];
        if Number(t.data, v.start + v.count, U8) == Some(0) && utf8(bytes) then Some(bytes) else None
  }
}
