/** The bounded preflight of flat, uncompressed Arrow IPC files. */
module IpcValidation {
  import opened Options
  import opened IpcMetadata

  datatype Limits = Limits(
    maxColumns: nat, maxMetadata: nat, maxRows: nat, maxDecoded: nat, maxBatches: nat, utf8: seq<Byte> -> bool)

  datatype DType =
    | NullType | IntType(bits: int, signed: bool) | FloatType(bits: int) | StringType | BinaryType | BooleanType
    | DecimalType(precision: int, scale: int) | DateType | TimeType
    | DatetimeType(unit: int, zone: seq<Byte>) | DurationType(unit: int)

  /** A column of the schema; `width` is a value's, or a variable-width offset's, size in bytes. */
  datatype Column = Column(name: seq<Byte>, dtype: DType, kind: int, width: nat)
  {
    predicate IsNull() {
      kind == 1
    }

    predicate IsVariable() {
      kind == 4 || kind == 5 || kind == 19 || kind == 20
    }

    predicate IsView() {
      kind == 23 || kind == 24
    }

    predicate Valid() {
      IsVariable() ==> width == 4 || width == 8
    }
  }

  // ---- Schema ----

  /** The type of a field: its kind, parameters and width. */
  function TypeOf(kind: int, p: Table, utf8: seq<Byte> -> bool): Option<(DType, nat)>
    requires p.Valid()
  {
    if kind == 1 then Some((NullType, 0))
    else if kind == 2 then
      var bits, signed := NumberOf(p, 0, I32, 0), NumberOf(p, 1, U8, 0);
      if bits.Some? && signed.Some? && bits.value in {8, 16, 32, 64} && signed.value in {0, 1} then
        Some((IntType(bits.value, signed.value == 1), bits.value / 8))
      else None
    else if kind == 3 then
      var precision := NumberOf(p, 0, I16, 0);
      if precision == Some(1) then Some((FloatType(32), 4))
      else if precision == Some(2) then Some((FloatType(64), 8))
      else None
    else if kind in {4, 5, 19, 20, 23, 24} then
      Some((if kind in {5, 20, 24} then StringType else BinaryType, if kind in {4, 5} then 4 else 8))
    else if kind == 6 then Some((BooleanType, 0))
    else if kind == 7 then
      var precision, scale, bits := NumberOf(p, 0, I32, 0), NumberOf(p, 1, I32, 0), NumberOf(p, 2, I32, 128);
      if precision.Some? && scale.Some? && bits == Some(128)
         && 1 <= precision.value <= 38 && 0 <= scale.value <= precision.value
      then Some((DecimalType(precision.value, scale.value), 16)) else None
    else if kind == 8 then
      if NumberOf(p, 0, I16, 1) == Some(0) then Some((DateType, 4)) else None
    else if kind == 9 then
      if NumberOf(p, 0, I16, 1) == Some(3) && NumberOf(p, 1, I32, 32) == Some(64) then Some((TimeType, 8)) else None
    else if kind == 10 then
      var unit, zone := NumberOf(p, 0, I16, 0), Text(p, 1, utf8);
      if unit.Some? && unit.value in {1, 2, 3} && zone.Some? then
        Some((DatetimeType(unit.value, zone.value), 8))
      else
        None
    else if kind == 18 then
      var unit := NumberOf(p, 0, I16, 1);
      if unit.Some? && unit.value in {1, 2, 3} then Some((DurationType(unit.value), 8)) else None
    else None
  }

  /** `_column`. */
  function ColumnOf(f: Table, utf8: seq<Byte> -> bool): (r: Option<Column>)
    requires f.Valid()
    ensures r.Some? ==> r.value.Valid()
  {
    if Field(f, 4, 4) != Absent || !IsEmpty(f, 5, 4) || !IsEmpty(f, 6, 4) then None
    else
      var kind, p := NumberOf(f, 2, U8, 0), Child(f, 3);
      if kind.None? || p.None? then None
      else
        var t, name := TypeOf(kind.value, p.value, utf8), Text(f, 0, utf8);
        if t.None? || name.None? then None else Some(Column(name.value, t.value.0, kind.value, t.value.1))
  }

  predicate DistinctNames(columns: seq<Column>) {
    forall i, j :: 0 <= i < j < |columns| ==> columns[i].name != columns[j].name
  }

  function ColumnAt(t: Table, start: nat, k: nat, limits: Limits): (r: Option<Column>)
    ensures r.Some? ==> r.value.Valid()
  {
    match Indirect(t.data, start + 4 * k)
    case None => None
    case Some(target) =>
      match OpenTable(t.data, target)
      case None => None
      case Some(field) => ColumnOf(field, limits.utf8)
  }

  /** The metadata describes exactly these columns: little-endian, of known types, with distinct names, no
      more than allowed. */
  ghost predicate Describes(t: Table, limits: Limits, columns: seq<Column>)
    requires t.Valid()
  {
    var v := Vector(t, 1, 4, limits.maxColumns);
    && NumberOf(t, 0, I16, 0) == Some(0) && IsEmpty(t, 2, 4) && IsEmpty(t, 3, 8)
    && v.Some? && |columns| == v.value.count && DistinctNames(columns)
    && forall k :: 0 <= k < |columns| ==> ColumnAt(t, v.value.start, k, limits) == Some(columns[k])
  }

  lemma DescribedAreValid(t: Table, limits: Limits, columns: seq<Column>)
    requires t.Valid() && Describes(t, limits, columns)
    ensures forall k :: 0 <= k < |columns| ==> columns[k].Valid()
  {
    forall k | 0 <= k < |columns| ensures columns[k].Valid() {
      assert ColumnAt(t, Vector(t, 1, 4, limits.maxColumns).value.start, k, limits) == Some(columns[k]);
    }
  }

  lemma DescribedOnce(t: Table, limits: Limits, columns: seq<Column>, others: seq<Column>)
    requires t.Valid() && Describes(t, limits, others)
    requires var v := Vector(t, 1, 4, limits.maxColumns);
             |columns| == v.value.count
             && forall k :: 0 <= k < |columns| ==> ColumnAt(t, v.value.start, k, limits) == Some(columns[k])
    ensures others == columns
  {
    hide ColumnAt;
    var start := Vector(t, 1, 4, limits.maxColumns).value.start;
    forall k | 0 <= k < |columns| ensures others[k] == columns[k] {
      assert ColumnAt(t, start, k, limits) == Some(columns[k]);
    }
  }

  /** `_schema`: the columns the metadata describes, or a refusal when it describes none. */
  method Schema(t: Table, limits: Limits) returns (r: Option<seq<Column>>)
    requires t.Valid()
    ensures r.Some? ==> Describes(t, limits, r.value)
    ensures r.None? ==> forall columns :: !Describes(t, limits, columns)
  {
    hide ColumnAt, NumberOf, IsEmpty, Vector;
    var v := Vector(t, 1, 4, limits.maxColumns);
    if NumberOf(t, 0, I16, 0) != Some(0) || !IsEmpty(t, 2, 4) || !IsEmpty(t, 3, 8) || v.None? {
      return None;
    }
    var columns: seq<Column> := [];
    for i := 0 to v.value.count
      invariant |columns| == i
      invariant forall k :: 0 <= k < i ==> ColumnAt(t, v.value.start, k, limits) == Some(columns[k])
    {
      var column := ColumnAt(t, v.value.start, i, limits);
      if column.None? {
        return None;
      }
      columns := columns + [column.value];
    }
    if !DistinctNames(columns) {
      forall others ensures !Describes(t, limits, others) {
        if Describes(t, limits, others) {
          DescribedOnce(t, limits, columns, others);
        }
      }
      return None;
    }
    return Some(columns);
  }

  // ---- Encapsulated messages ----

  datatype Message = Message(table: Table, metadata: nat, body: nat)

  /** `_message`: metadata and body both end within the boundary. */
  function MessageAt(d: seq<Byte>, offset: nat, boundary: nat, limits: Limits): (r: Option<Message>)
    requires boundary <= |d|
    ensures r.Some? ==>
      && r.value.table.Valid() && r.value.metadata > 4
      && offset + r.value.metadata + r.value.body <= boundary
  {
    match Number(d, offset, U32)
    case None => None
    case Some(mark) =>
      var prefix := if mark == 0xFFFFFFFF then 8 else 4;
      match Number(d, offset + prefix - 4, I32)
      case None => None
      case Some(size) =>
        if !(0 < size <= limits.maxMetadata && offset + prefix + size <= boundary) then None
        else
          match Root(d[offset + prefix..offset + prefix + size])
          case None => None
          case Some(t) =>
            var version, body := NumberOf(t, 0, I16, 0), NumberOf(t, 3, I64, 0);
            if version.Some? && version.value in {3, 4} && IsEmpty(t, 4, 4) && body.Some?
               && 0 <= body.value <= boundary - offset - prefix - size
            then Some(Message(t, prefix + size, body.value)) else None
  }

  // ---- Record batches ----

  datatype Buffer = Buffer(offset: nat, length: nat)

  predicate Inside(body: seq<Byte>, b: Buffer) {
    b.offset + b.length <= |body|
  }

  function Content(body: seq<Byte>, b: Buffer): (r: seq<Byte>)
    requires Inside(body, b)
    ensures |r| == b.length
  {
    body[b.offset..b.offset + b.length]
  }

  function Bits(rows: nat): nat {
    (rows + 7) / 8
  }

  /** Bytes taken by `n` offsets. */
  function OffsetBytes(wide: bool, n: nat): nat {
    if wide then 8 * n else 4 * n
  }

  /** Offset `k` of a variable-width column. */
  function OffsetAt(values: seq<Byte>, wide: bool, k: nat): int
    requires OffsetBytes(wide, k + 1) <= |values|
  {
    Number(values, OffsetBytes(wide, k), if wide then I64 else I32).value
  }

  ghost predicate OffsetInside(values: seq<Byte>, wide: bool, payload: nat, k: nat)
    requires OffsetBytes(wide, k + 1) <= |values|
  {
    && 0 <= OffsetAt(values, wide, k) <= payload
    && (k > 0 ==> OffsetAt(values, wide, k - 1) <= OffsetAt(values, wide, k))
  }

  /** Variable-size layout: offsets never decrease and stay inside the payload. */
  ghost predicate OffsetsSound(values: seq<Byte>, wide: bool, payload: nat, rows: nat) {
    && OffsetBytes(wide, rows + 1) <= |values|
    && (forall k :: 0 <= k <= rows ==> OffsetInside(values, wide, payload, k))
  }

  method CheckOffsets(values: seq<Byte>, wide: bool, payload: nat, rows: nat) returns (ok: bool)
    ensures ok <==> OffsetsSound(values, wide, payload, rows)
  {
    hide OffsetAt;
    if |values| < OffsetBytes(wide, rows + 1) {
      return false;
    }
    var previous := 0;
    for k := 0 to rows + 1
      invariant forall j :: 0 <= j < k ==> OffsetInside(values, wide, payload, j)
      invariant if k == 0 then previous == 0 else previous == OffsetAt(values, wide, k - 1)
    {
      var offset := OffsetAt(values, wide, k);
      assert k > 0 ==> OffsetInside(values, wide, payload, k - 1);
      if !(previous <= offset <= payload) {
        assert !OffsetInside(values, wide, payload, k);
        return false;
      }
      previous := offset;
    }
    return true;
  }

  datatype View = View(size: int, buffer: int, offset: int)

  /** One 16-byte view: length, prefix or inline bytes, buffer index, offset. */
  function ViewAt(values: seq<Byte>, k: nat): View
    requires (k + 1) * 16 <= |values|
  {
    View(Number(values, k * 16, I32).value, Number(values, k * 16 + 8, I32).value,
      Number(values, k * 16 + 12, I32).value)
  }

  /** A view is inline, or names bytes inside one of the column's own data buffers. */
  predicate ViewInside(v: View, data: seq<Buffer>) {
    && v.size >= 0
    && (v.size > 12 ==> 0 <= v.buffer < |data| && 0 <= v.offset && v.offset + v.size <= data[v.buffer].length)
  }

  /** Total bytes the first views stand for. */
  function ViewBytes(values: seq<Byte>, rows: nat): int
    requires rows * 16 <= |values|
  {
    if rows == 0 then 0 else ViewBytes(values, rows - 1) + ViewAt(values, rows - 1).size
  }

  ghost predicate ViewsSound(values: seq<Byte>, data: seq<Buffer>, rows: nat) {
    rows * 16 <= |values| && forall k :: 0 <= k < rows ==> ViewInside(ViewAt(values, k), data)
  }

  /** The check of a view column, with its running decoded budget. */
  method CheckViews(values: seq<Byte>, data: seq<Buffer>, rows: nat, spent: nat, maximum: nat)
    returns (ok: bool, decoded: nat)
    requires spent <= maximum
    ensures ok <==> ViewsSound(values, data, rows) && spent + ViewBytes(values, rows) <= maximum
    ensures ok ==> decoded == spent + ViewBytes(values, rows)
  {
    hide ViewAt;
    decoded := spent;
    if |values| < rows * 16 {
      return false, decoded;
    }
    for k := 0 to rows
      invariant forall j :: 0 <= j < k ==> ViewInside(ViewAt(values, j), data)
      invariant decoded == spent + ViewBytes(values, k) <= maximum
    {
      var v := ViewAt(values, k);
      if !ViewInside(v, data) {
        return false, decoded;
      }
      if decoded + v.size > maximum {
        ViewsGrow(values, data, k + 1, rows);
        return false, decoded;
      }
      decoded := decoded + v.size;
    }
    return true, decoded;
  }

  lemma {:induction false} ViewsGrow(values: seq<Byte>, data: seq<Buffer>, k: nat, n: nat)
    requires k <= n && n * 16 <= |values|
    ensures ViewsSound(values, data, n) ==> ViewBytes(values, k) <= ViewBytes(values, n)
  {
    hide ViewAt;
    if k < n {
      ViewsGrow(values, data, k, n - 1);
      if ViewsSound(values, data, n) {
        assert ViewInside(ViewAt(values, n - 1), data);
      }
    }
  }

  /** What a record batch's metadata says, and how its columns share its buffers: column `i` owns buffers
      `starts[i]` up to `starts[i + 1]`; `costs[i]` is what its views expand to. */
  datatype Batch = Batch(
    rows: nat, buffers: seq<Buffer>, nulls: seq<nat>, starts: seq<nat>, costs: seq<nat>, decoded: nat)

  function Own(b: Batch, i: nat): seq<Buffer>
    requires i + 1 < |b.starts| && b.starts[i] <= b.starts[i + 1] <= |b.buffers|
  {
    b.buffers[b.starts[i]..b.starts[i + 1]]
  }

  /** A column's buffers are in bounds and long enough for its rows. */
  ghost predicate ColumnSound(body: seq<Byte>, c: Column, rows: nat, nulls: nat, own: seq<Buffer>, cost: nat)
    requires forall k :: 0 <= k < |own| ==> Inside(body, own[k])
  {
    && nulls <= rows
    && if c.IsNull() then own == [] && cost == 0
       else
         && |own| >= 2
         && (nulls > 0 ==> own[0].length >= Bits(rows))
         && if c.IsVariable() then
              |own| == 3 && cost == 0 && OffsetsSound(Content(body, own[1]), c.width == 8, own[2].length, rows)
            else if c.IsView() then
              && ViewsSound(Content(body, own[1]), own[2..], rows)
              && cost == ViewBytes(Content(body, own[1]), rows)
            else |own| == 2 && cost == 0 && own[1].length >= if c.kind == 6 then Bits(rows) else rows * c.width
  }

  function Lengths(buffers: seq<Buffer>): nat {
    if |buffers| == 0 then 0 else Lengths(buffers[..|buffers| - 1]) + buffers[|buffers| - 1].length
  }

  function Sum(costs: seq<nat>): nat {
    if |costs| == 0 then 0 else Sum(costs[..|costs| - 1]) + costs[|costs| - 1]
  }

  lemma SumSnoc(costs: seq<nat>, c: nat)
    ensures Sum(costs + [c]) == Sum(costs) + c
  {
    assert (costs + [c])[..|costs|] == costs;
  }

  ghost predicate OwnsSoundly(body: seq<Byte>, columns: seq<Column>, b: Batch, i: nat)
    requires i < |columns| && i < |b.nulls| && i < |b.costs| && i + 1 < |b.starts|
    requires forall k :: 0 <= k < |b.buffers| ==> Inside(body, b.buffers[k])
  {
    && b.starts[i] <= b.starts[i + 1] <= |b.buffers|
    && ColumnSound(body, columns[i], b.rows, b.nulls[i], Own(b, i), b.costs[i])
  }

  /** The first columns are sound and own consecutive buffers from the first on. */
  ghost predicate ColumnsSound(body: seq<Byte>, columns: seq<Column>, b: Batch, n: nat) {
    && n <= |columns| && |b.nulls| == n == |b.costs| && |b.starts| == n + 1 && b.starts[0] == 0
    && (forall k :: 0 <= k < |b.buffers| ==> Inside(body, b.buffers[k]))
    && (forall i :: 0 <= i < n ==> OwnsSoundly(body, columns, b, i))
  }

  /** A sound batch: every column sound, every buffer owned, the decoded budget exact and respected. */
  ghost predicate BatchSound(body: seq<Byte>, columns: seq<Column>, limits: Limits, b: Batch) {
    && b.rows <= limits.maxRows
    && ColumnsSound(body, columns, b, |columns|)
    && b.starts[|columns|] == |b.buffers|
    && b.decoded == b.rows * |columns| * 32 + 2 * Lengths(b.buffers) + Sum(b.costs) <= limits.maxDecoded
  }

  ghost predicate BufferReads(t: Table, start: nat, k: nat, buffers: seq<Buffer>)
    requires k < |buffers|
  {
    && Number(t.data, start + k * 16, I64) == Some(buffers[k].offset)
    && Number(t.data, start + k * 16 + 8, I64) == Some(buffers[k].length)
  }

  /** These are the buffers the vector describes, and they lie inside the body. */
  ghost predicate BuffersRead(t: Table, body: seq<Byte>, v: Elements, buffers: seq<Buffer>) {
    && |buffers| == v.count
    && forall k :: 0 <= k < |buffers| ==> Inside(body, buffers[k]) && BufferReads(t, v.start, k, buffers)
  }

  lemma BuffersOnce(t: Table, body: seq<Byte>, v: Elements, a: seq<Buffer>, b: seq<Buffer>)
    requires BuffersRead(t, body, v, a) && BuffersRead(t, body, v, b)
    ensures a == b
  {
    hide Number;
    forall k | 0 <= k < |a| ensures a[k] == b[k] {
      assert BufferReads(t, v.start, k, a) && BufferReads(t, v.start, k, b);
    }
  }

  lemma BufferAt(t: Table, body: seq<Byte>, v: Elements, buffers: seq<Buffer>, k: nat)
    requires BuffersRead(t, body, v, buffers) && k < v.count
    ensures |buffers| == v.count && Inside(body, buffers[k]) && BufferReads(t, v.start, k, buffers)
  {
    hide Number;
  }

  /** The buffers the vector describes, or a refusal when one of them is not inside the body. */
  method ReadBuffers(t: Table, body: seq<Byte>, v: Elements) returns (r: Option<seq<Buffer>>, total: nat)
    requires InBounds(t.data, v.start, v.count * 16)
    ensures r.Some? ==> BuffersRead(t, body, v, r.value) && total == Lengths(r.value)
    ensures r.None? ==> forall buffers :: !BuffersRead(t, body, v, buffers)
  {
    hide Number;
    var buffers: seq<Buffer> := [];
    total := 0;
    for k := 0 to v.count
      invariant |buffers| == k && total == Lengths(buffers)
      invariant forall j :: 0 <= j < k ==> Inside(body, buffers[j]) && BufferReads(t, v.start, j, buffers)
    {
      var offset, length := Number(t.data, v.start + k * 16, I64).value,
        Number(t.data, v.start + k * 16 + 8, I64).value;
      if !(0 <= offset <= |body| && 0 <= length <= |body| - offset) {
        forall others ensures !BuffersRead(t, body, v, others) {
          if BuffersRead(t, body, v, others) {
            BufferAt(t, body, v, others, k);
          }
        }
        return None, 0;
      }
      var more := buffers + [Buffer(offset, length)];
      assert more[..k] == buffers;
      forall j | 0 <= j < k ensures BufferReads(t, v.start, j, more) {
        assert BufferReads(t, v.start, j, buffers);
      }
      buffers := more;
      total := total + length;
    }
    return Some(buffers), total;
  }

  /** Buffers a column takes; `extra` is its number of view data buffers. */
  function BuffersOf(c: Column, extra: nat): nat {
    if c.IsNull() then 0 else if c.IsVariable() then 3 else if c.IsView() then 2 + extra else 2
  }

  /** A column that takes `count` buffers from `cursor` on is sound at some cost within what is left. */
  ghost predicate ColumnFits(body: seq<Byte>, c: Column, rows: nat, nulls: nat, buffers: seq<Buffer>, cursor: nat,
                             count: nat, cost: nat, room: int)
    requires forall k :: 0 <= k < |buffers| ==> Inside(body, buffers[k])
  {
    && cursor + count <= |buffers| && cost <= room
    && ColumnSound(body, c, rows, nulls, buffers[cursor..cursor + count], cost)
  }

  ghost predicate NeverFits(body: seq<Byte>, c: Column, rows: nat, nulls: nat, buffers: seq<Buffer>, cursor: nat,
                            count: nat, room: int)
    requires forall k :: 0 <= k < |buffers| ==> Inside(body, buffers[k])
  {
    forall cost :: !ColumnFits(body, c, rows, nulls, buffers, cursor, count, cost, room)
  }

  /** One column against the buffers from `cursor` on. */
  method CheckColumn(body: seq<Byte>, c: Column, rows: nat, nulls: nat, buffers: seq<Buffer>, cursor: nat, extra: nat,
                     spent: nat, maximum: nat)
    returns (ok: bool, count: nat, cost: nat)
    requires c.Valid() && cursor <= |buffers| && spent <= maximum && nulls <= rows
    requires forall k :: 0 <= k < |buffers| ==> Inside(body, buffers[k])
    ensures count == BuffersOf(c, extra)
    ensures ok ==> ColumnFits(body, c, rows, nulls, buffers, cursor, count, cost, maximum - spent)
    ensures !ok ==> NeverFits(body, c, rows, nulls, buffers, cursor, count, maximum - spent)
  {
    hide OffsetsSound, ViewsSound, ViewBytes;
    count, cost := BuffersOf(c, extra), 0;
    if c.IsNull() {
      assert buffers[cursor..cursor] == [];
      return true, count, 0;
    }
    if cursor + count > |buffers| {
      return false, count, 0;
    }
    var own := buffers[cursor..cursor + count];
    var values := Content(body, own[1]);
    if nulls > 0 && own[0].length < Bits(rows) {
      return false, count, 0;
    }
    if c.IsVariable() {
      ok := CheckOffsets(values, c.width == 8, own[2].length, rows);
    } else if c.IsView() {
      var decoded;
      ok, decoded := CheckViews(values, own[2..], rows, spent, maximum);
      if ok {
        ViewBytesNonnegative(values, own[2..], rows);
        cost := decoded - spent;
      }
    } else {
      ok := own[1].length >= if c.kind == 6 then Bits(rows) else rows * c.width;
    }
  }

  lemma {:induction false} ViewBytesNonnegative(values: seq<Byte>, data: seq<Buffer>, rows: nat)
    requires ViewsSound(values, data, rows)
    ensures ViewBytes(values, rows) >= 0
  {
    hide ViewAt;
    if rows > 0 {
      ViewBytesNonnegative(values, data, rows - 1);
      assert ViewInside(ViewAt(values, rows - 1), data);
    }
  }

  function ViewColumns(columns: seq<Column>): nat {
    if |columns| == 0 then 0
    else ViewColumns(columns[..|columns| - 1]) + if columns[|columns| - 1].IsView() then 1 else 0
  }

  /** Extending a sound prefix by one sound column. */
  lemma ColumnsGrow(
    body: seq<Byte>, columns: seq<Column>, b: Batch, n: nat, nulls: nat, count: nat, cost: nat, b': Batch)
    requires ColumnsSound(body, columns, b, n) && n < |columns|
    requires b.starts[n] + count <= |b.buffers|
    requires ColumnSound(body, columns[n], b.rows, nulls, b.buffers[b.starts[n]..b.starts[n] + count], cost)
    requires b' == b.(nulls := b.nulls + [nulls], starts := b.starts + [b.starts[n] + count], costs := b.costs + [cost])
    ensures ColumnsSound(body, columns, b', n + 1)
  {
    hide ColumnSound;
    forall i | 0 <= i < n + 1 ensures OwnsSoundly(body, columns, b', i) {
      if i < n {
        assert OwnsSoundly(body, columns, b, i);
        assert Own(b', i) == Own(b, i);
      }
    }
  }

  ghost predicate NodeReads(t: Table, start: nat, k: nat, b: Batch)
    requires k < |b.nulls|
  {
    Number(t.data, start + k * 16, I64) == Some(b.rows) && Number(t.data, start + k * 16 + 8, I64) == Some(b.nulls[k])
  }

  /** A view column owns as many data buffers as its variadic count says. */
  ghost predicate VariadicReads(t: Table, start: nat, columns: seq<Column>, k: nat, b: Batch)
    requires k < |columns| && k + 1 < |b.starts|
  {
    columns[k].IsView() ==>
      && b.starts[k] + 2 <= b.starts[k + 1]
      && Number(t.data, start + ViewColumns(columns[..k]) * 8, I64) == Some(b.starts[k + 1] - b.starts[k] - 2)
  }

  /** The first columns are sound, and what the field nodes and variadic counts say of them. */
  ghost predicate ColumnsFit(
    t: Table, nodes: nat, variadic: nat, body: seq<Byte>, columns: seq<Column>, b: Batch, n: nat) {
    && ColumnsSound(body, columns, b, n)
    && forall k :: 0 <= k < n ==> NodeReads(t, nodes, k, b) && VariadicReads(t, variadic, columns, k, b)
  }

  /** The metadata the batch was read from says what the batch says. */
  ghost predicate Reads(t: Table, body: seq<Byte>, columns: seq<Column>, limits: Limits, b: Batch)
    requires t.Valid()
  {
    var nodes, buffers := Vector(t, 1, 16, limits.maxColumns), Vector(t, 2, 16, limits.maxMetadata / 16);
    var variadic := Vector(t, 4, 8, limits.maxColumns);
    && Field(t, 3, 4) == Absent && NumberOf(t, 0, I64, 0) == Some(b.rows)
    && nodes.Some? && nodes.value.count == |columns|
    && variadic.Some? && variadic.value.count == ViewColumns(columns)
    && buffers.Some? && BuffersRead(t, body, buffers.value, b.buffers)
    && ColumnsFit(t, nodes.value.start, variadic.value.start, body, columns, b, |columns|)
  }

  /** A batch is as its metadata says, and sound. */
  ghost predicate Batched(t: Table, body: seq<Byte>, columns: seq<Column>, limits: Limits, b: Batch)
    requires t.Valid()
  {
    Reads(t, body, columns, limits, b) && BatchSound(body, columns, limits, b)
  }

  // ---- A batch's layout is determined by its metadata ----

  lemma OwnSize(body: seq<Byte>, c: Column, rows: nat, nulls: nat, own: seq<Buffer>, cost: nat)
    requires forall k :: 0 <= k < |own| ==> Inside(body, own[k])
    requires c.Valid() && ColumnSound(body, c, rows, nulls, own, cost)
    ensures c.IsView() && !c.IsNull() && !c.IsVariable() ==> |own| >= 2
    ensures |own| == BuffersOf(c, if |own| >= 2 then |own| - 2 else 0)
  {
    hide OffsetsSound, ViewsSound;
  }

  lemma CostOnce(body: seq<Byte>, c: Column, rows: nat, nulls: nat, own: seq<Buffer>, a: nat, b: nat)
    requires forall k :: 0 <= k < |own| ==> Inside(body, own[k])
    requires ColumnSound(body, c, rows, nulls, own, a) && ColumnSound(body, c, rows, nulls, own, b)
    ensures a == b
  {
    hide OffsetsSound, ViewsSound;
  }

  /** Two readings of the same metadata agree on every column both have read. */
  lemma {:induction false} FitsAgree(
    t: Table, nodes: nat, variadic: nat, body: seq<Byte>, columns: seq<Column>, b: Batch, n: nat, w: Batch, i: nat)
    requires forall k :: 0 <= k < |columns| ==> columns[k].Valid()
    requires ColumnsFit(t, nodes, variadic, body, columns, b, n)
    requires ColumnsFit(t, nodes, variadic, body, columns, w, |columns|)
    requires i <= n && b.rows == w.rows && b.buffers == w.buffers
    ensures |b.nulls| == n == |b.costs| && |b.starts| == n + 1 && n <= |columns|
    ensures |w.nulls| == |columns| == |w.costs| && |w.starts| == |columns| + 1
    ensures forall k :: 0 <= k < i ==> b.nulls[k] == w.nulls[k] && b.costs[k] == w.costs[k]
    ensures forall k :: 0 <= k <= i ==> b.starts[k] == w.starts[k]
  {
    hide ColumnSound, Number;
    if i > 0 {
      FitsAgree(t, nodes, variadic, body, columns, b, n, w, i - 1);
      NextAgrees(t, nodes, variadic, body, columns, b, w, i - 1);
    }
  }

  lemma NextAgrees(
    t: Table, nodes: nat, variadic: nat, body: seq<Byte>, columns: seq<Column>, b: Batch, w: Batch, i: nat)
    requires i < |columns| && columns[i].Valid() && b.rows == w.rows && b.buffers == w.buffers
    requires i < |b.nulls| && i < |b.costs| && i + 1 < |b.starts| && i < |w.nulls| && i < |w.costs|
      && i + 1 < |w.starts|
    requires forall k :: 0 <= k < |b.buffers| ==> Inside(body, b.buffers[k])
    requires OwnsSoundly(body, columns, b, i) && OwnsSoundly(body, columns, w, i) && b.starts[i] == w.starts[i]
    requires NodeReads(t, nodes, i, b) && NodeReads(t, nodes, i, w)
    requires VariadicReads(t, variadic, columns, i, b) && VariadicReads(t, variadic, columns, i, w)
    ensures b.nulls[i] == w.nulls[i] && b.costs[i] == w.costs[i] && b.starts[i + 1] == w.starts[i + 1]
  {
    hide ColumnSound, Number;
    OwnSize(body, columns[i], b.rows, b.nulls[i], Own(b, i), b.costs[i]);
    OwnSize(body, columns[i], w.rows, w.nulls[i], Own(w, i), w.costs[i]);
    CostOnce(body, columns[i], b.rows, b.nulls[i], Own(b, i), b.costs[i], w.costs[i]);
  }

  /** What is left of the budget after some columns still covers the next one's cost. */
  lemma {:induction false} SumGrows(costs: seq<nat>, i: nat)
    requires i < |costs|
    ensures Sum(costs[..i]) + costs[i] <= Sum(costs)
  {
    var n := |costs| - 1;
    if i < n {
      SumGrows(costs[..n], i);
      assert costs[..n][..i] == costs[..i];
    }
  }

  /** The next column of any reading fits where a reading of the columns before it leaves off. */
  lemma NextFits(t: Table, nodes: nat, variadic: nat, body: seq<Byte>, columns: seq<Column>, b: Batch, i: nat, w: Batch,
                 base: nat, maximum: nat)
    requires forall k :: 0 <= k < |columns| ==> columns[k].Valid()
    requires i < |columns| && ColumnsFit(t, nodes, variadic, body, columns, b, i)
    requires ColumnsFit(t, nodes, variadic, body, columns, w, |columns|)
    requires b.rows == w.rows && b.buffers == w.buffers && base + Sum(w.costs) <= maximum
    ensures |b.starts| == i + 1 && |w.nulls| == |w.costs| == |columns| && |w.starts| == |columns| + 1
    ensures NodeReads(t, nodes, i, w) && VariadicReads(t, variadic, columns, i, w)
    ensures b.starts[i] == w.starts[i] <= w.starts[i + 1] && w.nulls[i] <= w.rows
    ensures var count := w.starts[i + 1] - w.starts[i];
            && count == BuffersOf(columns[i], if count >= 2 then count - 2 else 0)
            && (forall k :: 0 <= k < |b.buffers| ==> Inside(body, b.buffers[k]))
            && ColumnFits(body, columns[i], b.rows, w.nulls[i], b.buffers, b.starts[i], count, w.costs[i],
                          maximum - base - Sum(b.costs))
  {
    hide Number, BuffersOf;
    FitsAgree(t, nodes, variadic, body, columns, b, i, w, i);
    assert OwnsSoundly(body, columns, w, i);
    SumGrows(w.costs, i);
    assert w.costs[..i] == b.costs;
    NullsFit(body, columns[i], w.rows, w.nulls[i], Own(w, i), w.costs[i]);
    OwnSize(body, columns[i], w.rows, w.nulls[i], Own(w, i), w.costs[i]);
    hide ColumnSound;
  }

  lemma NullsFit(body: seq<Byte>, c: Column, rows: nat, nulls: nat, own: seq<Buffer>, cost: nat)
    requires forall k :: 0 <= k < |own| ==> Inside(body, own[k])
    requires ColumnSound(body, c, rows, nulls, own, cost)
    ensures nulls <= rows
  {}

  // ---- Reading a batch ----

  /** The numbers read for a column: its node's length and null count, and its variadic count. */
  ghost predicate NumbersGood(
    t: Table, nodes: nat, variadic: nat, columns: seq<Column>, i: nat, rows: nat, buffers: nat)
    requires i < |columns|
  {
    var length, nulls := Number(t.data, nodes + i * 16, I64), Number(t.data, nodes + i * 16 + 8, I64);
    && length == Some(rows) && nulls.Some? && 0 <= nulls.value <= rows
    && (columns[i].IsView() ==>
          var extra := Number(t.data, variadic + ViewColumns(columns[..i]) * 8, I64);
          extra.Some? && 0 <= extra.value <= buffers)
  }

  /** Read them; `views` counts the view columns before this one. */
  method ReadNumbers(t: Table, nodes: Elements, variadic: Elements, columns: seq<Column>, i: nat, views: nat, rows: nat,
                     buffers: nat)
    returns (ok: bool, nulls: nat, extra: nat)
    requires i < |columns| && views == ViewColumns(columns[..i])
    requires InBounds(t.data, nodes.start, nodes.count * 16) && nodes.count == |columns|
    requires InBounds(t.data, variadic.start, variadic.count * 8) && variadic.count == ViewColumns(columns)
    ensures ok <==> NumbersGood(t, nodes.start, variadic.start, columns, i, rows, buffers)
    ensures ok ==>
      && Number(t.data, nodes.start + i * 16, I64) == Some(rows)
      && Number(t.data, nodes.start + i * 16 + 8, I64) == Some(nulls) && nulls <= rows
      && if columns[i].IsView() then Number(t.data, variadic.start + ViewColumns(columns[..i]) * 8, I64) == Some(extra)
         else extra == 0
    ensures (if columns[i].IsView() then views + 1 else views) == ViewColumns(columns[..i + 1])
  {
    hide Number;
    nulls, extra := 0, 0;
    assert columns[..i + 1][..i] == columns[..i];
    ViewColumnsGrow(columns, i + 1, |columns|);
    assert columns[..|columns|] == columns;
    var length := Number(t.data, nodes.start + i * 16, I64).value;
    var missing := Number(t.data, nodes.start + i * 16 + 8, I64).value;
    if !(length == rows && 0 <= missing <= rows) {
      return false, 0, 0;
    }
    nulls := missing;
    if columns[i].IsView() {
      var count := Number(t.data, variadic.start + views * 8, I64).value;
      if !(0 <= count <= buffers) {
        return false, 0, 0;
      }
      extra := count;
    }
    ok := true;
  }

  /** The column loop of `_batch`: field nodes, variadic counts and buffers, column by column. It accepts
      exactly when the columns can be laid out soundly within the budget. */
  method CheckColumns(t: Table, body: seq<Byte>, columns: seq<Column>, b0: Batch, nodes: Elements, variadic: Elements,
                      base: nat, maximum: nat)
    returns (ok: bool, ghost b: Batch, cursor: nat, decoded: nat)
    requires forall k :: 0 <= k < |columns| ==> columns[k].Valid()
    requires forall k :: 0 <= k < |b0.buffers| ==> Inside(body, b0.buffers[k])
    requires b0.nulls == [] && b0.costs == [] && b0.starts == [0] && base <= maximum
    requires InBounds(t.data, nodes.start, nodes.count * 16) && nodes.count == |columns|
    requires InBounds(t.data, variadic.start, variadic.count * 8) && variadic.count == ViewColumns(columns)
    ensures ok ==>
      && ColumnsFit(t, nodes.start, variadic.start, body, columns, b, |columns|)
      && b.rows == b0.rows && b.buffers == b0.buffers && |b.starts| == |columns| + 1
      && cursor == b.starts[|columns|] && decoded == base + Sum(b.costs) <= maximum
    ensures !ok ==> forall w ::
      ColumnsFit(t, nodes.start, variadic.start, body, columns, w, |columns|) && w.rows == b0.rows
        && w.buffers == b0.buffers
      ==> base + Sum(w.costs) > maximum
  {
    hide ColumnsFit, ColumnFits, NeverFits, NumbersGood, Number, Sum, BuffersOf, VariadicReads, NodeReads, ViewColumns;
    b := b0;
    cursor, decoded := 0, base;
    var views := 0;
    NoColumns(t, nodes.start, variadic.start, body, columns, b);
    for i := 0 to |columns|
      invariant ColumnsFit(t, nodes.start, variadic.start, body, columns, b, i) && b.rows == b0.rows
        && b.buffers == b0.buffers
      invariant |b.nulls| == i == |b.costs| && |b.starts| == i + 1 && cursor == b.starts[i] <= |b.buffers|
      invariant decoded == base + Sum(b.costs) <= maximum
      invariant views == ViewColumns(columns[..i])
    {
      var c := columns[i];
      var good, nulls, extra := ReadNumbers(t, nodes, variadic, columns, i, views, b0.rows, |b0.buffers|);
      views := if c.IsView() then views + 1 else views;
      if !good {
        forall w | ColumnsFit(t, nodes.start, variadic.start, body, columns, w, |columns|)
                   && w.rows == b0.rows && w.buffers == b0.buffers
          ensures base + Sum(w.costs) > maximum
        {
          NumbersRefused(t, nodes.start, variadic.start, body, columns, b, i, w, base, maximum);
        }
        return false, b, cursor, decoded;
      }
      var fine, count, cost := CheckColumn(body, c, b0.rows, nulls, b0.buffers, cursor, extra, decoded, maximum);
      if !fine {
        forall w | ColumnsFit(t, nodes.start, variadic.start, body, columns, w, |columns|)
                   && w.rows == b0.rows && w.buffers == b0.buffers
          ensures base + Sum(w.costs) > maximum
        {
          ColumnRefused(t, nodes.start, variadic.start, body, columns, b, i, w, nulls, extra, base, maximum);
        }
        return false, b, cursor, decoded;
      }
      ghost var next := b.(nulls := b.nulls + [nulls], starts := b.starts + [cursor + count],
                              costs := b.costs + [cost]);
      FitGrows(t, nodes.start, variadic.start, body, columns, b, i, nulls, extra, count, cost, maximum - decoded, next);
      SumSnoc(b.costs, cost);
      b := next;
      cursor, decoded := cursor + count, decoded + cost;
    }
    ok := true;
  }

  lemma NumbersRefused(
    t: Table, nodes: nat, variadic: nat, body: seq<Byte>, columns: seq<Column>, b: Batch, i: nat, w: Batch,
    base: nat, maximum: nat)
    requires forall k :: 0 <= k < |columns| ==> columns[k].Valid()
    requires i < |columns| && ColumnsFit(t, nodes, variadic, body, columns, b, i)
    requires ColumnsFit(t, nodes, variadic, body, columns, w, |columns|)
    requires b.rows == w.rows && b.buffers == w.buffers
    requires !NumbersGood(t, nodes, variadic, columns, i, b.rows, |b.buffers|)
    ensures base + Sum(w.costs) > maximum
  {
    hide Number, ColumnsFit, BuffersOf;
    if base + Sum(w.costs) <= maximum {
      NextFits(t, nodes, variadic, body, columns, b, i, w, base, maximum);
    }
  }

  lemma ColumnRefused(
    t: Table, nodes: nat, variadic: nat, body: seq<Byte>, columns: seq<Column>, b: Batch, i: nat, w: Batch,
    nulls: nat, extra: nat, base: nat, maximum: nat)
    requires forall k :: 0 <= k < |columns| ==> columns[k].Valid()
    requires i < |columns| && ColumnsFit(t, nodes, variadic, body, columns, b, i)
    requires ColumnsFit(t, nodes, variadic, body, columns, w, |columns|)
    requires b.rows == w.rows && b.buffers == w.buffers && |b.starts| == i + 1
    requires Number(t.data, nodes + i * 16 + 8, I64) == Some(nulls)
    requires if columns[i].IsView() then Number(t.data, variadic + ViewColumns(columns[..i]) * 8, I64) == Some(extra)
             else extra == 0
    requires forall k :: 0 <= k < |b.buffers| ==> Inside(body, b.buffers[k])
    requires NeverFits(body, columns[i], b.rows, nulls, b.buffers, b.starts[i], BuffersOf(columns[i], extra),
                       maximum - base - Sum(b.costs))
    ensures base + Sum(w.costs) > maximum
  {
    hide Number, ColumnsFit, ColumnFits;
    if base + Sum(w.costs) <= maximum {
      NextFitsAs(t, nodes, variadic, body, columns, b, i, w, nulls, extra, base, maximum);
    }
  }

  /** The same, with the numbers read for the column. */
  lemma NextFitsAs(
    t: Table, nodes: nat, variadic: nat, body: seq<Byte>, columns: seq<Column>, b: Batch, i: nat, w: Batch,
    nulls: nat, extra: nat, base: nat, maximum: nat)
    requires forall k :: 0 <= k < |columns| ==> columns[k].Valid()
    requires i < |columns| && ColumnsFit(t, nodes, variadic, body, columns, b, i)
    requires ColumnsFit(t, nodes, variadic, body, columns, w, |columns|)
    requires b.rows == w.rows && b.buffers == w.buffers && |b.starts| == i + 1 && base + Sum(w.costs) <= maximum
    requires Number(t.data, nodes + i * 16 + 8, I64) == Some(nulls)
    requires if columns[i].IsView() then Number(t.data, variadic + ViewColumns(columns[..i]) * 8, I64) == Some(extra)
             else extra == 0
    requires forall k :: 0 <= k < |b.buffers| ==> Inside(body, b.buffers[k])
    ensures i < |w.costs|
    ensures ColumnFits(body, columns[i], b.rows, nulls, b.buffers, b.starts[i], BuffersOf(columns[i], extra),
                       w.costs[i], maximum - base - Sum(b.costs))
  {
    hide Number, ColumnsFit, ColumnFits;
    NextFits(t, nodes, variadic, body, columns, b, i, w, base, maximum);
    assert w.starts[i + 1] - w.starts[i] == BuffersOf(columns[i], extra);
  }

  lemma NoColumns(t: Table, nodes: nat, variadic: nat, body: seq<Byte>, columns: seq<Column>, b: Batch)
    requires b.nulls == [] && b.costs == [] && b.starts == [0]
    requires forall k :: 0 <= k < |b.buffers| ==> Inside(body, b.buffers[k])
    ensures ColumnsFit(t, nodes, variadic, body, columns, b, 0) && Sum(b.costs) == 0 && ViewColumns(columns[..0]) == 0
  {}

  /** One more column read and found sound. */
  lemma FitGrows(
    t: Table, nodes: nat, variadic: nat, body: seq<Byte>, columns: seq<Column>, b: Batch, n: nat, nulls: nat,
    extra: nat, count: nat, cost: nat, room: int, b': Batch)
    requires ColumnsFit(t, nodes, variadic, body, columns, b, n) && n < |columns| && |b.starts| == n + 1
    requires forall k :: 0 <= k < |b.buffers| ==> Inside(body, b.buffers[k])
    requires ColumnFits(body, columns[n], b.rows, nulls, b.buffers, b.starts[n], count, cost, room)
    requires count == BuffersOf(columns[n], extra) && columns[n].Valid()
    requires Number(t.data, nodes + n * 16, I64) == Some(b.rows)
      && Number(t.data, nodes + n * 16 + 8, I64) == Some(nulls)
    requires columns[n].IsView() ==> Number(t.data, variadic + ViewColumns(columns[..n]) * 8, I64) == Some(extra)
    requires b' == b.(nulls := b.nulls + [nulls], starts := b.starts + [b.starts[n] + count], costs := b.costs + [cost])
    ensures ColumnsFit(t, nodes, variadic, body, columns, b', n + 1)
    ensures cost <= room && b.starts[n] + count <= |b.buffers|
  {
    ColumnsGrow(body, columns, b, n, nulls, count, cost, b');
    hide ColumnSound, ColumnsSound, Number, BuffersOf, VariadicReads, NodeReads, OwnsSoundly;
    NewColumnReads(t, nodes, variadic, columns, b, n, nulls, extra, count, b');
    forall k | 0 <= k < n ensures NodeReads(t, nodes, k, b') && VariadicReads(t, variadic, columns, k, b') {
      OldColumnReads(t, nodes, variadic, columns, b, k, b');
    }
  }

  lemma NewColumnReads(
    t: Table, nodes: nat, variadic: nat, columns: seq<Column>, b: Batch, n: nat, nulls: nat, extra: nat,
    count: nat, b': Batch)
    requires n < |columns| && columns[n].Valid() && |b.nulls| == n && |b.starts| == n + 1
    requires count == BuffersOf(columns[n], extra)
    requires Number(t.data, nodes + n * 16, I64) == Some(b.rows)
      && Number(t.data, nodes + n * 16 + 8, I64) == Some(nulls)
    requires columns[n].IsView() ==> Number(t.data, variadic + ViewColumns(columns[..n]) * 8, I64) == Some(extra)
    requires b'.rows == b.rows && b'.nulls == b.nulls + [nulls] && b'.starts == b.starts + [b.starts[n] + count]
    ensures NodeReads(t, nodes, n, b') && VariadicReads(t, variadic, columns, n, b')
  {
    hide Number, ViewColumns;
  }

  lemma OldColumnReads(t: Table, nodes: nat, variadic: nat, columns: seq<Column>, b: Batch, k: nat, b': Batch)
    requires k < |columns| && k < |b.nulls| && k + 1 < |b.starts|
    requires NodeReads(t, nodes, k, b) && VariadicReads(t, variadic, columns, k, b)
    requires b'.rows == b.rows && b.nulls <= b'.nulls && b.starts <= b'.starts
    ensures NodeReads(t, nodes, k, b') && VariadicReads(t, variadic, columns, k, b')
  {
    hide Number, ViewColumns;
  }

  lemma {:induction false} ViewColumnsGrow(columns: seq<Column>, i: nat, n: nat)
    requires i <= n <= |columns|
    ensures ViewColumns(columns[..i]) <= ViewColumns(columns[..n])
  {
    if i < n {
      ViewColumnsGrow(columns, i, n - 1);
      assert columns[..n][..n - 1] == columns[..n - 1];
    }
  }

  /** `_batch`: it accepts exactly the sound batches, and reads what their metadata says. */
  method CheckBatch(t: Table, body: seq<Byte>, columns: seq<Column>, limits: Limits)
    returns (ok: bool, rows: nat, decoded: nat, ghost b: Batch)
    requires t.Valid() && forall k :: 0 <= k < |columns| ==> columns[k].Valid()
    ensures ok ==> Batched(t, body, columns, limits, b) && rows == b.rows && decoded == b.decoded
    ensures !ok ==> forall w :: !Batched(t, body, columns, limits, w)
  {
    hide Number, Vector, NumberOf, Field, ColumnsFit, BuffersRead, Lengths, Sum, ViewColumns;
    rows, decoded := 0, 0;
    b := Batch(0, [], [], [0], [], 0);
    if Field(t, 3, 4) != Absent {
      return false, rows, decoded, b;
    }
    var total := NumberOf(t, 0, I64, 0);
    var nodes, buffers := Vector(t, 1, 16, limits.maxColumns), Vector(t, 2, 16, limits.maxMetadata / 16);
    var variadic := Vector(t, 4, 8, limits.maxColumns);
    if total.None? || !(0 <= total.value <= limits.maxRows) || nodes.None? || nodes.value.count != |columns|
       || buffers.None? || variadic.None? || variadic.value.count != ViewColumns(columns)
    {
      return false, rows, decoded, b;
    }
    rows := total.value;
    var spans, length := ReadBuffers(t, body, buffers.value);
    if spans.None? {
      return false, rows, decoded, b;
    }
    var base := rows * |columns| * 32 + 2 * length;
    if base > limits.maxDecoded {
      forall w ensures !Batched(t, body, columns, limits, w) {
        if Batched(t, body, columns, limits, w) {
          BuffersOnce(t, body, buffers.value, spans.value, w.buffers);
        }
      }
      return false, rows, decoded, b;
    }
    var b0, cursor := Batch(rows, spans.value, [], [0], [], 0), 0;
    BuffersInside(t, body, buffers.value, spans.value);
    ok, b, cursor, decoded := CheckColumns(t, body, columns, b0, nodes.value, variadic.value, base, limits.maxDecoded);
    if !ok {
      forall w ensures !Batched(t, body, columns, limits, w) {
        if Batched(t, body, columns, limits, w) {
          BuffersOnce(t, body, buffers.value, spans.value, w.buffers);
        }
      }
      return false, rows, decoded, b;
    }
    if cursor != |spans.value| {
      forall w ensures !Batched(t, body, columns, limits, w) {
        if Batched(t, body, columns, limits, w) {
          BuffersOnce(t, body, buffers.value, spans.value, w.buffers);
          FitsAgree(t, nodes.value.start, variadic.value.start, body, columns, b, |columns|, w, |columns|);
        }
      }
      return false, rows, decoded, b;
    }
    RecostKeeps(t, nodes.value.start, variadic.value.start, body, columns, b, decoded);
    b := b.(decoded := decoded);
  }

  lemma BuffersInside(t: Table, body: seq<Byte>, v: Elements, buffers: seq<Buffer>)
    requires BuffersRead(t, body, v, buffers)
    ensures forall k :: 0 <= k < |buffers| ==> Inside(body, buffers[k])
  {
    hide Number;
  }

  lemma RecostKeeps(t: Table, nodes: nat, variadic: nat, body: seq<Byte>, columns: seq<Column>, b: Batch, decoded: nat)
    requires ColumnsFit(t, nodes, variadic, body, columns, b, |columns|)
    ensures ColumnsFit(t, nodes, variadic, body, columns, b.(decoded := decoded), |columns|)
    ensures ColumnsSound(body, columns, b.(decoded := decoded), |columns|)
  {
    hide ColumnSound, Number;
    var b' := b.(decoded := decoded);
    forall i | 0 <= i < |columns|
      ensures OwnsSoundly(body, columns, b', i) && NodeReads(t, nodes, i, b')
        && VariadicReads(t, variadic, columns, i, b')
    {
      assert OwnsSoundly(body, columns, b, i) && NodeReads(t, nodes, i, b) && VariadicReads(t, variadic, columns, i, b);
      assert Own(b', i) == Own(b, i);
    }
  }

  /** A message describes at most one batch. */
  lemma BatchedOnce(t: Table, body: seq<Byte>, columns: seq<Column>, limits: Limits, a: Batch, b: Batch)
    requires t.Valid() && forall k :: 0 <= k < |columns| ==> columns[k].Valid()
    requires Batched(t, body, columns, limits, a) && Batched(t, body, columns, limits, b)
    ensures a == b
  {
    hide Number, Vector, NumberOf, Field, ColumnsFit, BuffersRead, ColumnsSound, Lengths, Sum;
    var nodes, variadic := Vector(t, 1, 16, limits.maxColumns).value, Vector(t, 4, 8, limits.maxColumns).value;
    BuffersOnce(t, body, Vector(t, 2, 16, limits.maxMetadata / 16).value, a.buffers, b.buffers);
    FitsAgree(t, nodes.start, variadic.start, body, columns, a, |columns|, b, |columns|);
    assert a.nulls == b.nulls && a.costs == b.costs && a.starts == b.starts;
  }

  // ---- The file ----

  const MAGIC: seq<Byte> := [65, 82, 82, 79, 87, 49]  // "ARROW1"
  const CONTINUATION: seq<Byte> := [255, 255, 255, 255]
  const ZEROS: seq<Byte> := [0, 0, 0, 0]

  /** One record batch in the file. */
  datatype Block = Block(offset: nat, metadata: nat, body: nat, batch: Batch)
  {
    function End(): nat {
      offset + metadata + body
    }
  }

  /** The accepted file: where batches start, where they end, where the footer starts. */
  datatype File = File(first: nat, end: nat, footerStart: nat, footerSize: nat, blocks: seq<Block>)

  /** A block's message lies before the boundary, is a record batch, and its body is a sound batch. */
  ghost predicate BlockSound(data: seq<Byte>, boundary: nat, columns: seq<Column>, limits: Limits, b: Block)
    requires boundary <= |data|
  {
    var m := MessageAt(data, b.offset, boundary, limits);
    && m.Some? && m.value.metadata == b.metadata && m.value.body == b.body && b.End() <= boundary
    && NumberOf(m.value.table, 1, U8, 0) == Some(3)
    && Child(m.value.table, 2).Some?
    && Batched(Child(m.value.table, 2).value, data[b.offset + b.metadata..b.End()], columns, limits, b.batch)
  }

  /** The footer's entry for a block says where it is and how long. */
  ghost predicate IndexReads(footer: Table, at: nat, b: Block) {
    && Number(footer.data, at, I64) == Some(b.offset)
    && Number(footer.data, at + 8, I32) == Some(b.metadata)
    && Number(footer.data, at + 16, I64) == Some(b.body)
  }

  ghost predicate BlockFits(
    data: seq<Byte>, footer: Table, at: nat, boundary: nat, columns: seq<Column>, limits: Limits,
    b: Block)
    requires boundary <= |data|
  {
    IndexReads(footer, at, b) && BlockSound(data, boundary, columns, limits, b)
  }

  ghost predicate BlocksFit(
    data: seq<Byte>, footer: Table, start: nat, boundary: nat, columns: seq<Column>, limits: Limits,
    blocks: seq<Block>)
    requires boundary <= |data|
  {
    forall i :: 0 <= i < |blocks| ==> BlockFits(data, footer, start + i * 24, boundary, columns, limits, blocks[i])
  }

  /** Blocks follow one another from `first` to `end` without gap or overlap. */
  ghost predicate Tile(first: nat, end: nat, blocks: seq<Block>) {
    && (forall i :: 0 <= i < |blocks| ==> blocks[i].offset == EndBefore(first, blocks, i))
    && end == EndBefore(first, blocks, |blocks|)
  }

  function EndBefore(first: nat, blocks: seq<Block>, i: nat): nat
    requires i <= |blocks|
  {
    if i == 0 then first else blocks[i - 1].End()
  }

  function Rows(blocks: seq<Block>): nat {
    if |blocks| == 0 then 0 else Rows(blocks[..|blocks| - 1]) + blocks[|blocks| - 1].batch.rows
  }

  function Decoded(blocks: seq<Block>): nat {
    if |blocks| == 0 then 0 else Decoded(blocks[..|blocks| - 1]) + blocks[|blocks| - 1].batch.decoded
  }

  function MetadataBytes(blocks: seq<Block>): nat {
    if |blocks| == 0 then 0 else MetadataBytes(blocks[..|blocks| - 1]) + blocks[|blocks| - 1].metadata
  }

  datatype Footer = Footer(table: Table, start: nat, size: nat)

  /** The footer between the last block and the closing magic: sized, rooted, of a known version, without
      dictionaries or custom metadata. */
  function FooterOf(data: seq<Byte>, limits: Limits): (r: Option<Footer>)
    ensures r.Some? ==>
      && |data| >= 18 && data[..6] == MAGIC == data[|data| - 6..] && r.value.table.Valid()
      && 8 <= r.value.start && 0 < r.value.size <= limits.maxMetadata && r.value.start + r.value.size + 10 == |data|
  {
    if |data| < 18 || data[..6] != MAGIC || data[|data| - 6..] != MAGIC then None
    else
      var size := Number(data, |data| - 10, I32).value;
      if !(0 < size <= limits.maxMetadata && size <= |data| - 18) then None
      else
        var start := |data| - 10 - size;
        match Root(data[start..start + size])
        case None => None
        case Some(t) =>
          var version := NumberOf(t, 0, I16, 0);
          if version.Some? && version.value in {3, 4} && IsEmpty(t, 2, 24) && IsEmpty(t, 4, 4)
          then Some(Footer(t, start, size)) else None
  }

  /** Where the schema message ends: at the first indexed batch, or at the footer or the end-of-stream mark
      before it. */
  function SchemaEnd(data: seq<Byte>, footer: Footer, v: Elements): int
    requires 8 <= footer.start <= |data| && InBounds(footer.table.data, v.start, v.count * 24)
  {
    if v.count > 0 then Number(footer.table.data, v.start, I64).value
    else if data[footer.start - 8..footer.start] == CONTINUATION + ZEROS then footer.start - 8
    else footer.start
  }

  /** The record batches tile the bytes from the schema to the padding, each as the footer indexes it. */
  ghost predicate Laid(data: seq<Byte>, columns: seq<Column>, limits: Limits, footer: Footer, v: Elements, f: File)
    requires 8 <= footer.start <= |data| && InBounds(footer.table.data, v.start, v.count * 24)
  {
    && f.footerStart == footer.start && f.footerSize == footer.size && f.first == SchemaEnd(data, footer, v)
    && f.first <= f.end <= f.footerStart
    && |f.blocks| == v.count && Tile(f.first, f.end, f.blocks)
    && BlocksFit(data, footer.table, v.start, footer.start, columns, limits, f.blocks)
  }

  /** Everything acceptance means. */
  ghost predicate FileSound(data: seq<Byte>, columns: seq<Column>, rows: int, limits: Limits, f: File, decoded: nat) {
    && FooterOf(data, limits).Some?
    && var footer := FooterOf(data, limits).value;
       var child, v := Child(footer.table, 1), Vector(footer.table, 3, 24, limits.maxBatches);
       && child.Some? && Describes(child.value, limits, columns)
       && v.Some? && Laid(data, columns, limits, footer, v.value, f)
       && SchemaAgrees(data, f.first, columns, limits)
       && data[f.end..f.footerStart] in {[], ZEROS, CONTINUATION + ZEROS}
       && Rows(f.blocks) == rows <= limits.maxRows
       && decoded == Decoded(f.blocks) <= limits.maxDecoded
       && f.footerSize + (f.first - 8) + MetadataBytes(f.blocks) <= limits.maxMetadata
  }

  /** A sound file with the expected schema. */
  ghost predicate Accepted(data: seq<Byte>, expected: seq<(seq<Byte>, DType)>, rows: int, limits: Limits,
                           columns: seq<Column>, f: File, decoded: nat) {
    && FileSound(data, columns, rows, limits, f, decoded)
    && Expected(columns, expected)
  }

  predicate Expected(columns: seq<Column>, expected: seq<(seq<Byte>, DType)>) {
    && |columns| == |expected|
    && forall k :: 0 <= k < |columns| ==> (columns[k].name, columns[k].dtype) == expected[k]
  }

  /** The schema message between the magic and the first batch, framed or bare. */
  function SchemaMessage(data: seq<Byte>, schemaEnd: nat, limits: Limits): (r: Option<Table>)
    requires 8 < schemaEnd <= |data|
    ensures r.Some? ==> r.value.Valid()
  {
    if Number(data, 8, U32) == Some(0xFFFFFFFF) then
      var m := MessageAt(data, 8, schemaEnd, limits);
      if m.Some? && 8 + m.value.metadata == schemaEnd && m.value.body == 0 then Some(m.value.table) else None
    else
      match Root(data[8..schemaEnd])
      case None => None
      case Some(t) =>
        var version := NumberOf(t, 0, I16, 0);
        if version.Some? && version.value in {3, 4} && IsEmpty(t, 4, 4) && NumberOf(t, 3, I64, 0) == Some(0) then
          Some(t)
        else None
  }

  /** That message repeats the footer's schema. */
  ghost predicate SchemaAgrees(data: seq<Byte>, schemaEnd: nat, columns: seq<Column>, limits: Limits) {
    && 8 < schemaEnd <= |data|
    && var message := SchemaMessage(data, schemaEnd, limits);
       && message.Some? && NumberOf(message.value, 1, U8, 0) == Some(1)
       && Child(message.value, 2).Some? && Describes(Child(message.value, 2).value, limits, columns)
  }

  lemma SchemaStarts(data: seq<Byte>, schemaEnd: nat, columns: seq<Column>, limits: Limits)
    requires SchemaAgrees(data, schemaEnd, columns, limits)
    ensures 8 < schemaEnd
  {}

  method CheckSchemaMessage(data: seq<Byte>, schemaEnd: nat, columns: seq<Column>, limits: Limits) returns (ok: bool)
    requires 8 < schemaEnd <= |data|
    ensures ok <==> SchemaAgrees(data, schemaEnd, columns, limits)
  {
    hide SchemaMessage, Describes, NumberOf, Child;
    var message := SchemaMessage(data, schemaEnd, limits);
    if message.None? || NumberOf(message.value, 1, U8, 0) != Some(1) {
      return false;
    }
    var child := Child(message.value, 2);
    if child.None? {
      return false;
    }
    var again := Schema(child.value, limits);
    if again.None? {
      return false;
    }
    if Describes(child.value, limits, columns) {
      DescribedTwice(child.value, limits, columns, again.value);
    }
    return again.value == columns;
  }

  lemma DescribedTwice(t: Table, limits: Limits, a: seq<Column>, b: seq<Column>)
    requires t.Valid() && Describes(t, limits, a) && Describes(t, limits, b)
    ensures a == b
  {
    DescribedOnce(t, limits, a, b);
  }

  /** One indexed block: accepted exactly when a sound block stands where it must and as it is indexed. */
  method CheckBlock(
    data: seq<Byte>, footer: Table, at: nat, end: nat, footerStart: nat, columns: seq<Column>, limits: Limits)
    returns (ok: bool, ghost block: Block, rows: nat, decoded: nat, metadata: nat, next: nat)
    requires footerStart <= |data| && forall k :: 0 <= k < |columns| ==> columns[k].Valid()
    requires InBounds(footer.data, at, 24)
    ensures ok ==>
      && BlockFits(data, footer, at, footerStart, columns, limits, block)
      && block.offset == end && rows == block.batch.rows && decoded == block.batch.decoded
      && metadata == block.metadata && next == block.End()
    ensures !ok ==> forall w: Block :: w.offset == end ==> !BlockFits(data, footer, at, footerStart, columns, limits, w)
  {
    hide Batched, Number, NumberOf, Vector, Field, Child, MessageAt;
    block := Block(0, 0, 0, Batch(0, [], [], [], [], 0));
    rows, decoded, metadata, next := 0, 0, 0, 0;
    var offset, length := Number(footer.data, at, I64).value, Number(footer.data, at + 16, I64).value;
    var size := Number(footer.data, at + 8, I32).value;
    if offset != end {
      return false, block, rows, decoded, metadata, next;
    }
    var m := MessageAt(data, end, footerStart, limits);
    if m.None? || size != m.value.metadata || length != m.value.body || NumberOf(m.value.table, 1, U8, 0) != Some(3) {
      return false, block, rows, decoded, metadata, next;
    }
    var child := Child(m.value.table, 2);
    if child.None? {
      return false, block, rows, decoded, metadata, next;
    }
    metadata, next := m.value.metadata, end + m.value.metadata + m.value.body;
    ghost var b;
    ok, rows, decoded, b := CheckBatch(child.value, data[end + metadata..next], columns, limits);
    block := Block(end, metadata, m.value.body, b);
  }

  /** A place in the file holds at most one sound block. */
  lemma BlockOnce(data: seq<Byte>, boundary: nat, columns: seq<Column>, limits: Limits, a: Block, b: Block)
    requires boundary <= |data| && forall k :: 0 <= k < |columns| ==> columns[k].Valid()
    requires BlockSound(data, boundary, columns, limits, a) && BlockSound(data, boundary, columns, limits, b)
    requires a.offset == b.offset
    ensures a == b
  {
    hide Batched, NumberOf, Child, MessageAt;
    var m := MessageAt(data, a.offset, boundary, limits).value;
    BatchedOnce(Child(m.table, 2).value, data[a.offset + a.metadata..a.End()], columns, limits, a.batch, b.batch);
  }

  lemma BlockAt(data: seq<Byte>, footer: Table, start: nat, boundary: nat, columns: seq<Column>, limits: Limits,
                first: nat, blocks: seq<Block>, end: nat, i: nat)
    requires boundary <= |data| && i < |blocks|
    requires BlocksFit(data, footer, start, boundary, columns, limits, blocks) && Tile(first, end, blocks)
    ensures BlockFits(data, footer, start + i * 24, boundary, columns, limits, blocks[i])
    ensures BlockSound(data, boundary, columns, limits, blocks[i])
    ensures blocks[i].offset == EndBefore(first, blocks, i) && EndBefore(first, blocks, i + 1) == blocks[i].End()
  {
    assert BlockFits(data, footer, start + i * 24, boundary, columns, limits, blocks[i]);
    hide BlockSound, IndexReads;
  }

  /** Two tilings by sound blocks from the same place agree as far as both go. */
  lemma {:induction false} BlocksAgree(
    data: seq<Byte>, footer: Table, start: nat, boundary: nat, columns: seq<Column>, limits: Limits,
    first: nat, a: seq<Block>, aEnd: nat, b: seq<Block>, bEnd: nat, n: nat)
    requires boundary <= |data| && forall k :: 0 <= k < |columns| ==> columns[k].Valid()
    requires BlocksFit(data, footer, start, boundary, columns, limits, a) && Tile(first, aEnd, a)
    requires BlocksFit(data, footer, start, boundary, columns, limits, b) && Tile(first, bEnd, b)
    requires n <= |a| && n <= |b|
    ensures a[..n] == b[..n] && EndBefore(first, a, n) == EndBefore(first, b, n)
  {
    hide BlocksFit, Tile, BlockSound;
    if n > 0 {
      BlocksAgree(data, footer, start, boundary, columns, limits, first, a, aEnd, b, bEnd, n - 1);
      BlockAt(data, footer, start, boundary, columns, limits, first, a, aEnd, n - 1);
      BlockAt(data, footer, start, boundary, columns, limits, first, b, bEnd, n - 1);
      BlockOnce(data, boundary, columns, limits, a[n - 1], b[n - 1]);
      assert a[..n] == a[..n - 1] + [a[n - 1]] && b[..n] == b[..n - 1] + [b[n - 1]];
    }
  }

  /** What the file's blocks may add up to; `spent` is metadata already accounted for. */
  ghost predicate WithinBudget(blocks: seq<Block>, spent: nat, rows: int, limits: Limits) {
    && Rows(blocks) <= limits.maxRows && Rows(blocks) <= rows && Decoded(blocks) <= limits.maxDecoded
    && spent + MetadataBytes(blocks) <= limits.maxMetadata
  }

  lemma {:induction false} BudgetsShrink(blocks: seq<Block>, n: nat, spent: nat, rows: int, limits: Limits)
    requires n <= |blocks| && WithinBudget(blocks, spent, rows, limits)
    ensures WithinBudget(blocks[..n], spent, rows, limits)
    decreases |blocks|
  {
    if n == |blocks| {
      assert blocks[..n] == blocks;
    } else {
      var m := |blocks| - 1;
      BudgetsShrink(blocks[..m], n, spent, rows, limits);
      assert blocks[..m][..n] == blocks[..n];
    }
  }

  /** The loop over the footer's blocks: it accepts exactly when sound blocks, as indexed, tile the bytes from
      `first` on within the budgets. */
  method CheckBlocks(data: seq<Byte>, footer: Table, v: Elements, first: nat, footerStart: nat, spent: nat,
                     columns: seq<Column>, expectedRows: int, limits: Limits)
    returns (ok: bool, ghost blocks: seq<Block>, rows: nat, decoded: nat, metadata: nat, end: nat)
    requires first <= footerStart <= |data| && forall k :: 0 <= k < |columns| ==> columns[k].Valid()
    requires InBounds(footer.data, v.start, v.count * 24)
    ensures ok ==>
      && |blocks| == v.count && first <= end <= footerStart && Tile(first, end, blocks)
      && BlocksFit(data, footer, v.start, footerStart, columns, limits, blocks)
      && rows == Rows(blocks) && decoded == Decoded(blocks) && metadata == spent + MetadataBytes(blocks)
      && (|blocks| > 0 ==> WithinBudget(blocks, spent, expectedRows, limits))
    ensures !ok ==> forall w: seq<Block>, wEnd: nat ::
      |w| == v.count && Tile(first, wEnd, w) && BlocksFit(data, footer, v.start, footerStart, columns, limits, w)
      ==> !WithinBudget(w, spent, expectedRows, limits)
  {
    hide BlockFits, BlocksFit, Tile, EndBefore, WithinBudget, MetadataBytes, Rows, Decoded;
    NothingTiles(data, footer, v.start, footerStart, columns, limits, first, spent);
    blocks := [];
    rows, decoded, metadata, end := 0, 0, spent, first;
    for i := 0 to v.count
      invariant |blocks| == i && first <= end <= footerStart && Tile(first, end, blocks)
      invariant BlocksFit(data, footer, v.start, footerStart, columns, limits, blocks)
      invariant rows == Rows(blocks) && decoded == Decoded(blocks) && metadata == spent + MetadataBytes(blocks)
      invariant i > 0 ==> WithinBudget(blocks, spent, expectedRows, limits)
    {
      ghost var block;
      var fine, blockRows, blockDecoded, blockMetadata, next;
      fine, block, blockRows, blockDecoded, blockMetadata, next :=
        CheckBlock(data, footer, v.start + i * 24, end, footerStart, columns, limits);
      if !fine {
        forall w, wEnd | |w| == v.count && Tile(first, wEnd, w)
          && BlocksFit(data, footer, v.start, footerStart, columns, limits, w)
          ensures !WithinBudget(w, spent, expectedRows, limits)
        {
          if WithinBudget(w, spent, expectedRows, limits) {
            NextBlockFits(data, footer, v.start, footerStart, columns, limits, first, blocks, end, w, wEnd);
          }
        }
        return false, blocks, rows, decoded, metadata, end;
      }
      ghost var more := blocks + [block];
      BlocksGrow(data, footer, v.start, footerStart, columns, limits, first, blocks, end, block);
      BlocksSnoc(blocks, block);
      BudgetIs(more, spent, expectedRows, limits);
      rows, decoded, metadata, end := rows + blockRows, decoded + blockDecoded, metadata + blockMetadata, next;
      if metadata > limits.maxMetadata || rows > limits.maxRows || rows > expectedRows || decoded > limits.maxDecoded {
        forall w, wEnd | |w| == v.count && Tile(first, wEnd, w)
          && BlocksFit(data, footer, v.start, footerStart, columns, limits, w)
          ensures !WithinBudget(w, spent, expectedRows, limits)
        {
          OverBudget(data, footer, v.start, footerStart, columns, limits, first, more, end, w, wEnd, spent,
            expectedRows);
        }
        return false, blocks, rows, decoded, metadata, end;
      }
      blocks := more;
    }
    ok := true;
  }

  lemma BudgetIs(blocks: seq<Block>, spent: nat, rows: int, limits: Limits)
    ensures WithinBudget(blocks, spent, rows, limits) <==>
      && Rows(blocks) <= limits.maxRows && Rows(blocks) <= rows && Decoded(blocks) <= limits.maxDecoded
      && spent + MetadataBytes(blocks) <= limits.maxMetadata
  {}

  /** Any other tiling has, as its next block, one that fits where this one ends. */
  lemma NextBlockFits(data: seq<Byte>, footer: Table, start: nat, boundary: nat, columns: seq<Column>, limits: Limits,
                      first: nat, blocks: seq<Block>, end: nat, w: seq<Block>, wEnd: nat)
    requires boundary <= |data| && forall k :: 0 <= k < |columns| ==> columns[k].Valid()
    requires BlocksFit(data, footer, start, boundary, columns, limits, blocks) && Tile(first, end, blocks)
    requires BlocksFit(data, footer, start, boundary, columns, limits, w) && Tile(first, wEnd, w) && |blocks| < |w|
    ensures w[|blocks|].offset == end
    ensures BlockFits(data, footer, start + |blocks| * 24, boundary, columns, limits, w[|blocks|])
  {
    hide BlockFits;
    BlocksAgree(data, footer, start, boundary, columns, limits, first, blocks, end, w, wEnd, |blocks|);
  }

  lemma OverBudget(data: seq<Byte>, footer: Table, start: nat, boundary: nat, columns: seq<Column>, limits: Limits,
                   first: nat, blocks: seq<Block>, end: nat, w: seq<Block>, wEnd: nat, spent: nat, rows: int)
    requires boundary <= |data| && forall k :: 0 <= k < |columns| ==> columns[k].Valid()
    requires BlocksFit(data, footer, start, boundary, columns, limits, blocks) && Tile(first, end, blocks)
    requires BlocksFit(data, footer, start, boundary, columns, limits, w) && Tile(first, wEnd, w) && |blocks| <= |w|
    requires !WithinBudget(blocks, spent, rows, limits)
    ensures !WithinBudget(w, spent, rows, limits)
  {
    hide BlocksFit, Tile, WithinBudget;
    BlocksAgree(data, footer, start, boundary, columns, limits, first, blocks, end, w, wEnd, |blocks|);
    assert blocks[..|blocks|] == blocks;
    if WithinBudget(w, spent, rows, limits) {
      BudgetsShrink(w, |blocks|, spent, rows, limits);
    }
  }

  lemma BlocksGrow(data: seq<Byte>, footer: Table, start: nat, boundary: nat, columns: seq<Column>, limits: Limits,
                   first: nat, blocks: seq<Block>, end: nat, b: Block)
    requires boundary <= |data| && end <= boundary
    requires BlocksFit(data, footer, start, boundary, columns, limits, blocks) && Tile(first, end, blocks)
    requires BlockFits(data, footer, start + |blocks| * 24, boundary, columns, limits, b) && b.offset == end
    ensures BlocksFit(data, footer, start, boundary, columns, limits, blocks + [b])
    ensures Tile(first, b.End(), blocks + [b]) && end <= b.End() <= boundary
  {
    hide Tile, BlocksFit, BlockSound, IndexReads;
    BlockEnds(data, boundary, columns, limits, b);
    TileSnoc(first, end, blocks, b);
    FitSnoc(data, footer, start, boundary, columns, limits, blocks, b);
  }

  lemma FitSnoc(data: seq<Byte>, footer: Table, start: nat, boundary: nat, columns: seq<Column>, limits: Limits,
                blocks: seq<Block>, b: Block)
    requires boundary <= |data| && BlocksFit(data, footer, start, boundary, columns, limits, blocks)
    requires BlockFits(data, footer, start + |blocks| * 24, boundary, columns, limits, b)
    ensures BlocksFit(data, footer, start, boundary, columns, limits, blocks + [b])
  {
    hide BlockFits;
    var all := blocks + [b];
    forall i | 0 <= i < |all| ensures BlockFits(data, footer, start + i * 24, boundary, columns, limits, all[i]) {
      if i < |blocks| {
        assert BlockFits(data, footer, start + i * 24, boundary, columns, limits, blocks[i]);
      }
    }
  }

  lemma BlockEnds(data: seq<Byte>, boundary: nat, columns: seq<Column>, limits: Limits, b: Block)
    requires boundary <= |data| && BlockSound(data, boundary, columns, limits, b)
    ensures b.End() <= boundary
  {}

  lemma NothingTiles(data: seq<Byte>, footer: Table, start: nat, boundary: nat, columns: seq<Column>, limits: Limits,
                     first: nat, spent: nat)
    requires boundary <= |data|
    ensures Tile(first, first, []) && BlocksFit(data, footer, start, boundary, columns, limits, [])
    ensures Rows([]) == 0 == Decoded([]) == MetadataBytes([])
  {}

  lemma TileSnoc(first: nat, end: nat, blocks: seq<Block>, b: Block)
    requires Tile(first, end, blocks) && b.offset == end
    ensures Tile(first, b.End(), blocks + [b])
  {
    hide EndBefore;
    var all := blocks + [b];
    forall i | 0 <= i <= |blocks| ensures EndBefore(first, all, i) == EndBefore(first, blocks, i) {
      SameEnds(first, blocks, b, i);
    }
    forall i | 0 <= i < |all| ensures all[i].offset == EndBefore(first, all, i) {
    }
    SameEnds(first, blocks, b, |blocks|);
  }

  lemma SameEnds(first: nat, blocks: seq<Block>, b: Block, i: nat)
    requires i <= |blocks|
    ensures EndBefore(first, blocks + [b], i) == EndBefore(first, blocks, i)
    ensures EndBefore(first, blocks + [b], |blocks| + 1) == b.End()
  {}

  lemma Adjacent(first: nat, end: nat, blocks: seq<Block>, j: nat)
    requires Tile(first, end, blocks) && 0 < j < |blocks|
    ensures blocks[j].offset == blocks[j - 1].End()
  {
    assert blocks[j].offset == EndBefore(first, blocks, j);
  }

  lemma {:induction false} BlocksAreOrdered(first: nat, end: nat, blocks: seq<Block>, i: nat, j: nat)
    requires Tile(first, end, blocks) && i < j < |blocks|
    ensures blocks[i].End() <= blocks[j].offset
  {
    hide Tile, EndBefore;
    Adjacent(first, end, blocks, j);
    if i + 1 < j {
      BlocksAreOrdered(first, end, blocks, i, j - 1);
    }
  }

  lemma TileHead(first: nat, end: nat, blocks: seq<Block>)
    requires Tile(first, end, blocks) && |blocks| > 0
    ensures Tile(first, blocks[|blocks| - 1].offset, blocks[..|blocks| - 1])
  {
    var head := blocks[..|blocks| - 1];
    forall i | 0 <= i < |head| ensures head[i].offset == EndBefore(first, head, i) {
      assert EndBefore(first, head, i) == EndBefore(first, blocks, i);
    }
    assert EndBefore(first, head, |head|) == EndBefore(first, blocks, |head|);
  }

  lemma {:induction false} OwnerOf(first: nat, end: nat, blocks: seq<Block>, at: nat) returns (i: nat)
    requires Tile(first, end, blocks) && first <= at < end
    ensures i < |blocks| && blocks[i].offset <= at < blocks[i].End()
  {
    var n := |blocks| - 1;
    if blocks[n].offset <= at {
      i := n;
    } else {
      TileHead(first, end, blocks);
      i := OwnerOf(first, blocks[n].offset, blocks[..n], at);
    }
  }

  /** In a tiling every byte from the first batch to the end belongs to exactly one block. */
  lemma EveryByteHasOneOwner(first: nat, end: nat, blocks: seq<Block>, at: nat)
    requires Tile(first, end, blocks) && first <= at < end
    ensures exists i :: 0 <= i < |blocks| && Owns(blocks[i], at)
    ensures forall i, j :: 0 <= i < |blocks| && 0 <= j < |blocks| && Owns(blocks[i], at) && Owns(blocks[j], at) ==>
      i == j
  {
    var i := OwnerOf(first, end, blocks, at);
    assert Owns(blocks[i], at);
    forall i, j | 0 <= i < j < |blocks| ensures !(Owns(blocks[i], at) && Owns(blocks[j], at)) {
      BlocksAreOrdered(first, end, blocks, i, j);
    }
  }

  predicate Owns(b: Block, at: nat) {
    b.offset <= at < b.End()
  }

  lemma BlocksSnoc(blocks: seq<Block>, b: Block)
    ensures Rows(blocks + [b]) == Rows(blocks) + b.batch.rows
    ensures Decoded(blocks + [b]) == Decoded(blocks) + b.batch.decoded
    ensures MetadataBytes(blocks + [b]) == MetadataBytes(blocks) + b.metadata
  {
    assert (blocks + [b])[..|blocks|] == blocks;
  }

  /** `inspect_ipc`: it returns the decoded cost of a sound file with the expected schema, and refuses exactly
      when there is no reading of the bytes as one. */
  method InspectIpc(data: seq<Byte>, expected: seq<(seq<Byte>, DType)>, expectedRows: int, limits: Limits)
    returns (r: Option<nat>, ghost columns: seq<Column>, ghost f: File)
    ensures r.Some? ==> Accepted(data, expected, expectedRows, limits, columns, f, r.value)
    ensures r.None? ==> forall cs, g, d :: !Accepted(data, expected, expectedRows, limits, cs, g, d)
  {
    hide Number, Vector, Field, Child, FooterOf, SchemaEnd, BlocksFit, Describes, SchemaAgrees, Tile, Rows, Decoded,
         MetadataBytes, Expected, WithinBudget;
    columns := [];
    f := File(0, 0, 0, 0, []);
    var footing := FooterOf(data, limits);
    if footing.None? {
      return None, columns, f;
    }
    var footer := footing.value;
    var child, v := Child(footer.table, 1), Vector(footer.table, 3, 24, limits.maxBatches);
    if child.None? || v.None? {
      return None, columns, f;
    }
    var schema := Schema(child.value, limits);
    if schema.None? {
      return None, columns, f;
    }
    columns := schema.value;
    var schemaEnd := SchemaEnd(data, footer, v.value);
    if !Expected(schema.value, expected) || !(8 < schemaEnd <= footer.start && schemaEnd - 8 <= limits.maxMetadata) {
      forall cs, g, d ensures !Accepted(data, expected, expectedRows, limits, cs, g, d) {
        if Accepted(data, expected, expectedRows, limits, cs, g, d) {
          DescribedTwice(child.value, limits, cs, schema.value);
          SchemaStarts(data, schemaEnd, cs, limits);
        }
      }
      return None, columns, f;
    }
    var agrees := CheckSchemaMessage(data, schemaEnd, schema.value, limits);
    if !agrees {
      forall cs, g, d ensures !Accepted(data, expected, expectedRows, limits, cs, g, d) {
        if Accepted(data, expected, expectedRows, limits, cs, g, d) {
          DescribedTwice(child.value, limits, cs, schema.value);
        }
      }
      return None, columns, f;
    }
    DescribedAreValid(child.value, limits, schema.value);
    ghost var blocks;
    var fine, rows, decoded, metadata, end;
    fine, blocks, rows, decoded, metadata, end :=
      CheckBlocks(data, footer.table, v.value, schemaEnd, footer.start, footer.size + schemaEnd - 8, schema.value,
                  expectedRows, limits);
    if !fine {
      forall cs, g, d ensures !Accepted(data, expected, expectedRows, limits, cs, g, d) {
        if Accepted(data, expected, expectedRows, limits, cs, g, d) {
          DescribedTwice(child.value, limits, cs, schema.value);
          BudgetIs(g.blocks, footer.size + schemaEnd - 8, expectedRows, limits);
        }
      }
      return None, columns, f;
    }
    f := File(schemaEnd, end, footer.start, footer.size, blocks);
    BudgetIs(blocks, footer.size + schemaEnd - 8, expectedRows, limits);
    NoBlocks(blocks);
    if !(data[end..footer.start] in {[], ZEROS, CONTINUATION + ZEROS})
       || metadata > limits.maxMetadata || rows != expectedRows {
      forall cs, g, d ensures !Accepted(data, expected, expectedRows, limits, cs, g, d) {
        if Accepted(data, expected, expectedRows, limits, cs, g, d) {
          DescribedTwice(child.value, limits, cs, schema.value);
          LaidOnce(data, schema.value, limits, footer, v.value, f, g);
        }
      }
      return None, columns, f;
    }
    return Some(decoded), columns, f;
  }

  /** The footer and the schema determine the layout. */
  lemma LaidOnce(data: seq<Byte>, columns: seq<Column>, limits: Limits, footer: Footer, v: Elements, f: File, g: File)
    requires 8 <= footer.start <= |data| && InBounds(footer.table.data, v.start, v.count * 24)
    requires forall k :: 0 <= k < |columns| ==> columns[k].Valid()
    requires Laid(data, columns, limits, footer, v, f) && Laid(data, columns, limits, footer, v, g)
    ensures f == g
  {
    hide BlocksFit, SchemaEnd, EndBefore;
    BlocksAgree(data, footer.table, v.start, footer.start, columns, limits, f.first, f.blocks, f.end, g.blocks, g.end,
      v.count);
    assert f.blocks == f.blocks[..v.count] && g.blocks == g.blocks[..v.count];
  }

  lemma NoBlocks(blocks: seq<Block>)
    ensures |blocks| == 0 ==> Rows(blocks) == 0 && Decoded(blocks) == 0 && MetadataBytes(blocks) == 0
  {}
}
