/** DataRow and RowDescription payloads: the parsers accept exactly the encoded
    messages and say precisely what they read. */
module WireRows {
  import opened Wrappers
  import opened RetryPolicy
  import opened Wire
  import opened Blocks
  import opened Sequences

  type Bytes = seq<byte>

  // ---------- DataRow ----------

  function Be16(v: nat): (r: Bytes)
    requires v < 0x1_0000
    ensures |r| == 2
  {
    [v / 0x100, v % 0x100]
  }

  function ReadBe16(p: Bytes): (r: nat)
    requires |p| >= 2
    ensures r < 0x1_0000
  {
    Value16(p[0], p[1])
  }

  function Value16(a: byte, b: byte): (r: nat)
    ensures r < 0x1_0000
  {
    var high: int := a;
    high * 0x100 + b
  }

  /** A length field as a signed 32-bit integer. */
  function Signed32(v: nat): int
    requires v < TWO_32
  {
    if v < 0x8000_0000 then v else v - TWO_32
  }

  datatype FieldRead = NullField | Value(len: nat) | Bad(code: Code)

  /** The field whose length is at `off`. */
  function FieldAt(p: Bytes, off: nat): FieldRead {
    if off + 4 > |p| then Bad(ParserTruncatedField)
    else
      var len := Signed32(ReadBe32(p, off));
      if len == -1 then NullField
      else if len < 0 then Bad(ProtocolCorrupt)
      else if off + 4 + len > |p| then Bad(ParserTruncatedField)
      else Value(len)
  }

  /** The position after a field. */
  function After(off: nat, f: FieldRead): nat { off + 4 + (if f.Value? then f.len else 0) }

  function FieldOf(p: Bytes, off: nat): Option<Bytes>
    requires !FieldAt(p, off).Bad?
  {
    var f := FieldAt(p, off);
    if f.NullField? then None else Some(p[off + 4..off + 4 + f.len])
  }

  /** Fields read in order, where the reading stopped, and why. */
  datatype Fields = Fields(values: seq<Option<Bytes>>, end: nat, code: Code)

  /** The first `n` fields from offset 2 on. */
  function FieldsTo(p: Bytes, n: nat): (r: Fields)
    ensures r.code == OK ==> |r.values| == n
    ensures r.code != OK ==> |r.values| < n
  {
    if n == 0 then Fields([], 2, OK)
    else
      var r := FieldsTo(p, n - 1);
      if r.code != OK then r
      else if FieldAt(p, r.end).Bad? then r.(code := FieldAt(p, r.end).code)
      else Fields(r.values + [FieldOf(p, r.end)], After(r.end, FieldAt(p, r.end)), OK)
  }

  lemma {:induction false} FailureStays(p: Bytes, n: nat, m: nat)
    requires n <= m && FieldsTo(p, n).code != OK
    ensures FieldsTo(p, m) == FieldsTo(p, n)
    decreases m
  {
    if n < m { FailureStays(p, n, m - 1); }
  }

  function Text(f: Option<Bytes>): Bytes { if f.None? then [] else f.value }

  function Texts(fs: seq<Option<Bytes>>): seq<Bytes> { seq(|fs|, i requires 0 <= i < |fs| => Text(fs[i])) }

  lemma TextsSnoc(fs: seq<Option<Bytes>>, f: Option<Bytes>)
    ensures Texts(fs + [f]) == Texts(fs) + [Text(f)]
  {
  }

  function Row(p: Bytes): Fields {
    if |p| < 2 then Fields([], 0, ParserTruncatedRow) else FieldsTo(p, ReadBe16(p))
  }

  /** One field: the column it becomes (an empty one when it cannot be read) and what follows it. */
  method ReadField(p: Bytes, off: nat) returns (col: Bytes, next: nat, code: Code)
    ensures code == if FieldAt(p, off).Bad? then FieldAt(p, off).code else OK
    ensures code == OK ==> !FieldAt(p, off).Bad? && col == Text(FieldOf(p, off)) && next == After(off, FieldAt(p, off))
    ensures code != OK ==> col == []
  {
    col, next, code := [], off, OK;
    if off + 4 > |p| {
      return [], next, ParserTruncatedField;
    }
    var len := Signed32(ReadBe32(p, off));
    next := off + 4;
    if len == -1 {
      return;
    }
    if len < 0 {
      return [], next, ProtocolCorrupt;
    }
    if next + len > |p| {
      return [], next, ParserTruncatedField;
    }
    col := p[next..next + len];
    next := next + len;
  }

  /** Appends to the row; a field that cannot be read adds one empty column and ends the parse. */
  method ParseDataRow(p: Bytes, row: seq<Bytes>) returns (row': seq<Bytes>, code: Code)
    ensures code == Row(p).code
    ensures row' == row + Texts(Row(p).values) + (if code == OK || |p| < 2 then [] else [[]])
    ensures |p| >= 2 ==> (code == OK ==> |row'| == |row| + ReadBe16(p)) && |row'| <= |row| + ReadBe16(p)
    ensures forall i | 0 <= i < |Row(p).values| ::
              row'[|row| + i] == if Row(p).values[i].None? then [] else Row(p).values[i].value
  {
    row', code := row, OK;
    if |p| < 2 {
      return row', ParserTruncatedRow;
    }
    var ncols := Value16(p[0], p[1]);
    var off := 2;
    for c := 0 to ncols
      invariant code == OK && FieldsTo(p, c).code == OK && off == FieldsTo(p, c).end
      invariant row' == row + Texts(FieldsTo(p, c).values)
    {
      var col, next;
      col, next, code := ReadField(p, off);
      row' := row' + [col];
      if code != OK {
        FailureStays(p, c + 1, ncols);
        return;
      }
      TextsSnoc(FieldsTo(p, c).values, FieldOf(p, off));
      off := next;
    }
  }

  // ---------- encoding ----------

  /** What a DataRow field can hold: its length is a signed 32-bit integer. */
  predicate FitsField(f: Option<Bytes>) { f.Some? ==> |f.value| < 0x8000_0000 }

  ghost function EncodeField(f: Option<Bytes>): Bytes
    requires FitsField(f)
  {
    if f.None? then Be32(TWO_32 - 1) else Be32(|f.value|) + f.value
  }

  predicate FitsRow(fs: seq<Option<Bytes>>) { |fs| < 0x1_0000 && forall i | 0 <= i < |fs| :: FitsField(fs[i]) }

  ghost function Encodings(fs: seq<Option<Bytes>>): (r: seq<Bytes>)
    requires FitsRow(fs)
    ensures |r| == |fs|
  {
    seq(|fs|, i requires 0 <= i < |fs| => EncodeField(fs[i]))
  }

  ghost function EncodeRow(fs: seq<Option<Bytes>>): Bytes
    requires FitsRow(fs)
  {
    Be16(|fs|) + Join(Encodings(fs), |fs|)
  }

  lemma LengthHeld(p: Bytes, off: nat, v: nat)
    requires v < TWO_32 && Holds(p, off, Be32(v))
    ensures ReadBe32(p, off) == v
  {
  }

  /** The parser reads f at `off` and goes on at `end`. */
  predicate ReadsAs(p: Bytes, off: nat, f: Option<Bytes>, end: nat) {
    !FieldAt(p, off).Bad? && FieldOf(p, off) == f && After(off, FieldAt(p, off)) == end
  }

  lemma FieldHeld(p: Bytes, off: nat, f: Option<Bytes>)
    requires FitsField(f) && Holds(p, off, EncodeField(f))
    ensures ReadsAs(p, off, f, off + |EncodeField(f)|)
  {
    match f
    case None => LengthHeld(p, off, TWO_32 - 1);
    case Some(b) =>
      HoldsParts(p, off, Be32(|b|), b);
      LengthHeld(p, off, |b|);
  }

  lemma FieldsStep(p: Bytes, n: nat, values: seq<Option<Bytes>>, off: nat, f: Option<Bytes>, end: nat)
    requires FieldsTo(p, n) == Fields(values, off, OK) && ReadsAs(p, off, f, end)
    ensures FieldsTo(p, n + 1) == Fields(values + [f], end, OK)
  {
  }

  /** Fields that stand one after the other are read one after the other. */
  lemma {:induction false} FieldsFollow(p: Bytes, fs: seq<Option<Bytes>>, ends: seq<nat>, n: nat)
    requires |ends| == |fs| + 1 && n <= |fs| && ends[0] == 2
    requires forall i | 0 <= i < n :: ReadsAs(p, ends[i], fs[i], ends[i + 1])
    ensures FieldsTo(p, n) == Fields(fs[..n], ends[n], OK)
    decreases n
  {
    if n > 0 {
      FieldsFollow(p, fs, ends, n - 1);
      FieldsStep(p, n - 1, fs[..n - 1], ends[n - 1], fs[n - 1], ends[n]);
      SliceSnoc(fs, n - 1);
    }
  }

  /** Where each block starts, and where the last one ends. */
  function Ends(bs: seq<Bytes>): (r: seq<nat>)
    ensures |r| == |bs| + 1 && r[0] == 2
    ensures forall i | 0 <= i <= |bs| :: r[i] == 2 + |Join(bs, i)|
  {
    seq(|bs| + 1, i requires 0 <= i <= |bs| => 2 + |Join(bs, i)|)
  }

  lemma CountHeld(n: nat, body: Bytes, extra: Bytes)
    requires n < 0x1_0000
    ensures ReadBe16(Be16(n) + body + extra) == n
  {
  }

  /** An encoded row is read back field by field, whatever follows it. */
  lemma RowRoundTrip(fs: seq<Option<Bytes>>, extra: Bytes)
    requires FitsRow(fs)
    ensures Row(EncodeRow(fs) + extra) == Fields(fs, |EncodeRow(fs)|, OK)
  {
    var p, n, bs := EncodeRow(fs) + extra, |fs|, Encodings(fs);
    var ends := Ends(bs);
    Between(Be16(n), Join(bs, n), extra);
    forall i | 0 <= i < n
      ensures ReadsAs(p, ends[i], fs[i], ends[i + 1])
    {
      BlockHeld(p, 2, bs, n, i);
      FieldHeld(p, ends[i], fs[i]);
    }
    FieldsFollow(p, fs, ends, n);
    assert fs[..n] == fs;
    CountHeld(n, Join(bs, n), extra);
  }

  lemma EncodingsSnoc(fs: seq<Option<Bytes>>, f: Option<Bytes>)
    requires FitsRow(fs) && FitsField(f) && |fs| + 1 < 0x1_0000
    ensures FitsRow(fs + [f]) && Encodings(fs + [f]) == Encodings(fs) + [EncodeField(f)]
  {
  }

  lemma FieldIsEncoded(p: Bytes, off: nat)
    requires !FieldAt(p, off).Bad?
    ensures FitsField(FieldOf(p, off)) && After(off, FieldAt(p, off)) <= |p|
    ensures p[off..After(off, FieldAt(p, off))] == EncodeField(FieldOf(p, off))
  {
    ValueInverse(p, off);
    var f := FieldAt(p, off);
    if f.Value? {
      assert p[off..off + 4] + p[off + 4..off + 4 + f.len] == p[off..off + 4 + f.len];
    }
  }

  lemma {:induction false} FieldsAreEncoded(p: Bytes, n: nat)
    requires 2 <= |p| && n < 0x1_0000 && FieldsTo(p, n).code == OK
    ensures var r := FieldsTo(p, n);
            FitsRow(r.values) && 2 <= r.end <= |p| && p[2..r.end] == Join(Encodings(r.values), n)
    decreases n
  {
    if n > 0 {
      FieldsAreEncoded(p, n - 1);
      var r := FieldsTo(p, n - 1);
      var f := FieldOf(p, r.end);
      FieldIsEncoded(p, r.end);
      EncodingsSnoc(r.values, f);
      JoinSnoc(Encodings(r.values), EncodeField(f));
      SlicesJoin(p, 2, r.end, FieldsTo(p, n).end);
    }
  }

  ghost predicate IsEncoded(p: Bytes, fs: seq<Option<Bytes>>, extra: Bytes) { FitsRow(fs) && p == EncodeRow(fs) + extra }

  lemma AcceptedIsEncoded(p: Bytes)
    requires Row(p).code == OK
    ensures Row(p).end <= |p| && IsEncoded(p, Row(p).values, p[Row(p).end..])
  {
    var r := Row(p);
    FieldsAreEncoded(p, ReadBe16(p));
    CountInverse(p);
    ThreeParts(p, r.end);
  }

  lemma CountInverse(p: Bytes)
    requires |p| >= 2
    ensures p[..2] == Be16(ReadBe16(p))
  {
  }

  lemma ThreeParts(p: Bytes, e: nat)
    requires 2 <= e <= |p|
    ensures p == p[..2] + p[2..e] + p[e..]
  {
  }

  /** Exactly the payloads that start with an encoded row are accepted. */
  lemma AcceptsExactlyEncodings(p: Bytes)
    ensures Row(p).code == OK <==> exists fs, extra :: IsEncoded(p, fs, extra)
  {
    if Row(p).code == OK {
      AcceptedIsEncoded(p);
    }
    if fs, extra :| IsEncoded(p, fs, extra) {
      RowRoundTrip(fs, extra);
    }
  }

  // ---------- RowDescription ----------

  /** The first zero byte from `at` on, or the end. */
  function NulFrom(p: Bytes, at: nat): (r: nat)
    requires at <= |p|
    ensures at <= r <= |p| && (r < |p| ==> p[r] == 0) && forall k | at <= k < r :: p[k] != 0
    decreases |p| - at
  {
    if at == |p| || p[at] == 0 then at else NulFrom(p, at + 1)
  }

  const TAIL_LEN := 18

  datatype Names = Names(names: seq<Bytes>, end: nat, code: Code)

  function NamesTo(p: Bytes, n: nat): (r: Names)
    requires |p| >= 2
    ensures 2 <= r.end <= |p|
    ensures r.code == OK ==> |r.names| == n
    ensures r.code != OK ==> |r.names| < n
  {
    if n == 0 then Names([], 2, OK)
    else
      var r := NamesTo(p, n - 1);
      if r.code != OK then r
      else
        var z := NulFrom(p, r.end);
        if z == |p| || z + 1 + TAIL_LEN > |p| then r.(code := ParserTruncatedHeader)
        else Names(r.names + [p[r.end..z]], z + 1 + TAIL_LEN, OK)
  }

  lemma {:induction false} NameFailureStays(p: Bytes, n: nat, m: nat)
    requires |p| >= 2 && n <= m && NamesTo(p, n).code != OK
    ensures NamesTo(p, m) == NamesTo(p, n)
    decreases m
  {
    if n < m { NameFailureStays(p, n, m - 1); }
  }

  function Description(p: Bytes): Names {
    if |p| < 2 then Names([], 0, ParserTruncatedHeader) else NamesTo(p, ReadBe16(p))
  }

  method FindNul(p: Bytes, start: nat) returns (off: nat)
    requires start <= |p|
    ensures off == NulFrom(p, start)
  {
    off := start;
    while off < |p| && p[off] != 0
      invariant start <= off <= |p| && NulFrom(p, off) == NulFrom(p, start)
    {
      off := off + 1;
    }
  }

  /** One column name; nothing when it or the fixed part after it is cut off. */
  method ReadName(p: Bytes, off: nat) returns (name: Option<Bytes>, next: nat)
    requires off <= |p|
    ensures var z := NulFrom(p, off);
            if z == |p| || z + 1 + TAIL_LEN > |p| then name == None
            else name == Some(p[off..z]) && next == z + 1 + TAIL_LEN
  {
    next := FindNul(p, off);
    if next >= |p| {
      return None, next;
    }
    var text := p[off..next];
    next := next + 1;
    if next + TAIL_LEN > |p| {
      return None, next;
    }
    next := next + TAIL_LEN;
    name := Some(text);
  }

  method ParseRowDescription(p: Bytes) returns (cols: seq<Bytes>, code: Code)
    ensures cols == Description(p).names && code == Description(p).code
    ensures |p| >= 2 ==> (code == OK ==> |cols| == ReadBe16(p)) && |cols| <= ReadBe16(p)
  {
    cols, code := [], OK;
    if |p| < 2 {
      return cols, ParserTruncatedHeader;
    }
    var nfields := Value16(p[0], p[1]);
    var off := 2;
    for i := 0 to nfields
      invariant 2 <= off <= |p| && NamesTo(p, i) == Names(cols, off, OK)
    {
      var name, next := ReadName(p, off);
      if name.None? {
        NameFailureStays(p, i + 1, nfields);
        return cols, ParserTruncatedHeader;
      }
      cols := cols + [name.value];
      off := next;
    }
  }

  /** A described column: its name and the fixed part after it. */
  datatype Column = Column(name: Bytes, tail: Bytes)

  predicate FitsColumn(c: Column) { 0 !in c.name && |c.tail| == TAIL_LEN }

  predicate FitsDescription(cs: seq<Column>) { |cs| < 0x1_0000 && forall i | 0 <= i < |cs| :: FitsColumn(cs[i]) }

  function EncodeColumn(c: Column): Bytes { c.name + [0] + c.tail }

  function ColumnEncodings(cs: seq<Column>): (r: seq<Bytes>)
    ensures |r| == |cs|
  {
    seq(|cs|, i requires 0 <= i < |cs| => EncodeColumn(cs[i]))
  }

  function EncodeDescription(cs: seq<Column>): Bytes
    requires FitsDescription(cs)
  {
    Be16(|cs|) + Join(ColumnEncodings(cs), |cs|)
  }

  function NamesOf(cs: seq<Column>): seq<Bytes> { seq(|cs|, i requires 0 <= i < |cs| => cs[i].name) }

  /** The parser reads this name at `off` and goes on at `end`. */
  predicate NamedAs(p: Bytes, off: nat, name: Bytes, end: nat) {
    && off <= |p| && NulFrom(p, off) + 1 + TAIL_LEN == end <= |p|
    && p[off..NulFrom(p, off)] == name
  }

  lemma ColumnHeld(p: Bytes, off: nat, c: Column)
    requires FitsColumn(c) && Holds(p, off, EncodeColumn(c))
    ensures NamedAs(p, off, c.name, off + |EncodeColumn(c)|)
  {
    HoldsParts(p, off, c.name + [0], c.tail);
    HoldsParts(p, off, c.name, [0]);
    var z := off + |c.name|;
    assert p[z] == p[z..z + 1][0];
    forall k | off <= k < z ensures p[k] != 0 {
      assert p[k] == p[off..z][k - off];
    }
  }

  lemma NamesStep(p: Bytes, n: nat, names: seq<Bytes>, off: nat, name: Bytes, end: nat)
    requires |p| >= 2 && NamesTo(p, n) == Names(names, off, OK) && NamedAs(p, off, name, end)
    ensures NamesTo(p, n + 1) == Names(names + [name], end, OK)
  {
  }

  lemma {:induction false} NamesFollow(p: Bytes, names: seq<Bytes>, ends: seq<nat>, n: nat)
    requires |p| >= 2 && |ends| == |names| + 1 && n <= |names| && ends[0] == 2
    requires forall i | 0 <= i < n :: NamedAs(p, ends[i], names[i], ends[i + 1])
    ensures NamesTo(p, n) == Names(names[..n], ends[n], OK)
    decreases n
  {
    if n > 0 {
      NamesFollow(p, names, ends, n - 1);
      NamesStep(p, n - 1, names[..n - 1], ends[n - 1], names[n - 1], ends[n]);
      SliceSnoc(names, n - 1);
    }
  }

  /** An encoded description is read back column by column, whatever follows it. */
  lemma DescriptionRoundTrip(cs: seq<Column>, extra: Bytes)
    requires FitsDescription(cs)
    ensures Description(EncodeDescription(cs) + extra) == Names(NamesOf(cs), |EncodeDescription(cs)|, OK)
  {
    var p, n, bs := EncodeDescription(cs) + extra, |cs|, ColumnEncodings(cs);
    var ends := Ends(bs);
    Between(Be16(n), Join(bs, n), extra);
    forall i | 0 <= i < n
      ensures NamedAs(p, ends[i], NamesOf(cs)[i], ends[i + 1])
    {
      BlockHeld(p, 2, bs, n, i);
      ColumnHeld(p, ends[i], cs[i]);
    }
    NamesFollow(p, NamesOf(cs), ends, n);
    assert NamesOf(cs)[..n] == NamesOf(cs);
    CountHeld(n, Join(bs, n), extra);
  }

  /** The column whose name starts at `off`. */
  function ColumnAt(p: Bytes, off: nat): Column
    requires off <= |p| && NulFrom(p, off) + 1 + TAIL_LEN <= |p|
  {
    var z := NulFrom(p, off);
    Column(p[off..z], p[z + 1..z + 1 + TAIL_LEN])
  }

  /** The columns behind the names read, with their fixed parts. */
  function ColumnsTo(p: Bytes, n: nat): (cs: seq<Column>)
    requires |p| >= 2 && NamesTo(p, n).code == OK
    ensures |cs| == n
  {
    if n == 0 then [] else ColumnsTo(p, n - 1) + [ColumnAt(p, NamesTo(p, n - 1).end)]
  }

  lemma ColumnIsEncoded(p: Bytes, off: nat)
    requires off <= |p| && NulFrom(p, off) + 1 + TAIL_LEN <= |p|
    ensures FitsColumn(ColumnAt(p, off))
    ensures p[off..NulFrom(p, off) + 1 + TAIL_LEN] == EncodeColumn(ColumnAt(p, off))
  {
    var z := NulFrom(p, off);
    assert p[z] == 0 && p[z..z + 1] == [0];
    assert p[off..z + 1 + TAIL_LEN] == p[off..z] + p[z..z + 1] + p[z + 1..z + 1 + TAIL_LEN];
  }

  lemma ColumnEncodingsSnoc(cs: seq<Column>, c: Column)
    ensures ColumnEncodings(cs + [c]) == ColumnEncodings(cs) + [EncodeColumn(c)]
  {
  }

  lemma ColumnsStep(p: Bytes, n: nat)
    requires |p| >= 2 && n > 0 && NamesTo(p, n).code == OK
    ensures NamesTo(p, n - 1).code == OK
    ensures var off := NamesTo(p, n - 1).end;
            && NulFrom(p, off) + 1 + TAIL_LEN == NamesTo(p, n).end <= |p|
            && ColumnsTo(p, n) == ColumnsTo(p, n - 1) + [ColumnAt(p, off)]
  {
  }

  lemma FitsSnoc(cs: seq<Column>, c: Column)
    requires FitsDescription(cs) && FitsColumn(c) && |cs| + 1 < 0x1_0000
    ensures FitsDescription(cs + [c])
  {
  }

  lemma {:induction false} ColumnsAreEncoded(p: Bytes, n: nat)
    requires |p| >= 2 && n < 0x1_0000 && NamesTo(p, n).code == OK
    ensures FitsDescription(ColumnsTo(p, n)) && p[2..NamesTo(p, n).end] == Join(ColumnEncodings(ColumnsTo(p, n)), n)
    decreases n
  {
    if n > 0 {
      ColumnsStep(p, n);
      ColumnsAreEncoded(p, n - 1);
      var cs, off := ColumnsTo(p, n - 1), NamesTo(p, n - 1).end;
      var c := ColumnAt(p, off);
      ColumnIsEncoded(p, off);
      FitsSnoc(cs, c);
      ColumnEncodingsSnoc(cs, c);
      JoinSnoc(ColumnEncodings(cs), EncodeColumn(c));
      SlicesJoin(p, 2, off, NamesTo(p, n).end);
    }
  }

  predicate IsDescribed(p: Bytes, cs: seq<Column>, extra: Bytes) {
    FitsDescription(cs) && p == EncodeDescription(cs) + extra
  }

  lemma AcceptedIsDescribed(p: Bytes)
    requires Description(p).code == OK
    ensures IsDescribed(p, ColumnsTo(p, ReadBe16(p)), p[Description(p).end..])
  {
    ColumnsAreEncoded(p, ReadBe16(p));
    CountInverse(p);
    ThreeParts(p, Description(p).end);
  }

  /** Exactly the payloads that start with an encoded description are accepted. */
  lemma AcceptsExactlyDescriptions(p: Bytes)
    ensures Description(p).code == OK <==> exists cs, extra :: IsDescribed(p, cs, extra)
  {
    if Description(p).code == OK {
      AcceptedIsDescribed(p);
    }
    if cs, extra :| IsDescribed(p, cs, extra) {
      DescriptionRoundTrip(cs, extra);
    }
  }

  // ---------- samples and errors ----------

  /** What a row looks like on the wire: a count, and for each field its length and bytes, or -1 for NULL. */
  lemma SampleRow(a: byte)
    ensures EncodeRow([Some([a]), None]) == [0, 2] + [0, 0, 0, 1, a] + [255, 255, 255, 255]
  {
    var fs := [Some([a]), None];
    FourBytes([0, 0, 0, 1]);
    SameValue(Be32(1), [0, 0, 0, 1]);
    FourBytes([255, 255, 255, 255]);
    SameValue(Be32(TWO_32 - 1), [255, 255, 255, 255]);
    var bs := Encodings(fs);
    assert EncodeField(fs[0]) == [0, 0, 0, 1, a] && EncodeField(fs[1]) == [255, 255, 255, 255];
    assert Join(bs, 1) == [0, 0, 0, 1, a] && Join(bs, 2) == [0, 0, 0, 1, a] + [255, 255, 255, 255];
  }

  /** Which error ends the reading of a field: bytes are missing, or the length makes no sense. */
  lemma FieldErrors(p: Bytes, off: nat)
    ensures off + 4 > |p| ==> FieldAt(p, off) == Bad(ParserTruncatedField)
    ensures off + 4 <= |p| && 0x8000_0000 <= ReadBe32(p, off) < TWO_32 - 1 ==> FieldAt(p, off) == Bad(ProtocolCorrupt)
    ensures off + 4 <= |p| && ReadBe32(p, off) == TWO_32 - 1 ==> FieldAt(p, off) == NullField
    ensures off + 4 <= |p| && ReadBe32(p, off) < 0x8000_0000 ==>
              FieldAt(p, off) == if off + 4 + ReadBe32(p, off) <= |p| then Value(ReadBe32(p, off)) else Bad(ParserTruncatedField)
  {
  }

  /** ... and of a whole payload: too short for its count, or the error of the field it stops at. */
  lemma PayloadErrors(p: Bytes)
    ensures |p| < 2 ==> Row(p).code == ParserTruncatedRow && Description(p).code == ParserTruncatedHeader
    ensures |p| >= 2 && Row(p).code != OK ==> FieldAt(p, Row(p).end) == Bad(Row(p).code)
    ensures |p| >= 2 && Description(p).code != OK ==> Description(p).code == ParserTruncatedHeader
  {
    if |p| >= 2 {
      StopsAtError(p, ReadBe16(p));
      NameErrors(p, ReadBe16(p));
    }
  }

  lemma {:induction false} StopsAtError(p: Bytes, n: nat)
    ensures FieldsTo(p, n).code != OK ==> FieldAt(p, FieldsTo(p, n).end) == Bad(FieldsTo(p, n).code)
    decreases n
  {
    if n > 0 { StopsAtError(p, n - 1); }
  }

  lemma {:induction false} NameErrors(p: Bytes, n: nat)
    requires |p| >= 2
    ensures NamesTo(p, n).code in {OK, ParserTruncatedHeader}
    decreases n
  {
    if n > 0 { NameErrors(p, n - 1); }
  }
}
