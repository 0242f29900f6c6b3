/** Frames of the PostgreSQL wire protocol: big-endian integers, simple-query
    messages and the frame reader. */
module Wire {
  import opened Sequences

  type byte = x: int | 0 <= x < 256

  const TWO_32 := 0x1_0000_0000
  const MAX_PAYLOAD := 512 * 1024 * 1024
  const QUERY_TAG: byte := 81

  // ---------- big-endian integers ----------

  /** The value of bytes, the most significant first. */
  function BigEndian(s: seq<byte>): nat {
    if |s| == 0 then 0 else BigEndian(s[..|s| - 1]) * 0x100 + s[|s| - 1]
  }

  lemma FourBytes(s: seq<byte>)
    requires |s| == 4
    ensures BigEndian(s) == s[0] * 0x100_0000 + s[1] * 0x1_0000 + s[2] * 0x100 + s[3] < TWO_32
  {
    assert s[..3][..2] == s[..2] && s[..2][..1] == s[..1];
    var a: int, b: int, c: int := s[0], s[1], s[2];
    assert BigEndian(s[..1]) == a;
    assert BigEndian(s[..2]) == a * 0x100 + b;
    assert BigEndian(s[..3]) == a * 0x1_0000 + b * 0x100 + c;
  }

  /** Bytes are determined by their number and their value. */
  lemma {:induction false} SameValue(s: seq<byte>, t: seq<byte>)
    requires |s| == |t| && BigEndian(s) == BigEndian(t)
    ensures s == t
  {
    var n := |s|;
    if n > 0 {
      SameValue(s[..n - 1], t[..n - 1]);
      assert s == s[..n - 1] + [s[n - 1]] && t == t[..n - 1] + [t[n - 1]];
    }
  }

  function ReadBe32(s: seq<byte>, at: nat): (r: nat)
    requires at + 4 <= |s|
    ensures r < TWO_32
  {
    FourBytes(s[at..at + 4]);
    BigEndian(s[at..at + 4])
  }

  function Shifted(v: nat): (r: seq<byte>)
    requires v < TWO_32
    ensures |r| == 4
  {
    [v / 0x100_0000, v / 0x1_0000 % 0x100, v / 0x100 % 0x100, v % 0x100]
  }

  lemma ShiftedValue(v: nat)
    requires v < TWO_32
    ensures BigEndian(Shifted(v)) == v
  {
    assert v == v / 0x100 * 0x100 + v % 0x100;
    assert v / 0x100 == v / 0x100 / 0x100 * 0x100 + v / 0x100 % 0x100;
    assert v / 0x100 / 0x100 == v / 0x1_0000;
    assert v / 0x1_0000 == v / 0x1_0000 / 0x100 * 0x100 + v / 0x1_0000 % 0x100;
    assert v / 0x1_0000 / 0x100 == v / 0x100_0000;
    FourBytes(Shifted(v));
  }

  /** The four bytes whose value is v. */
  ghost function Be32(v: nat): (r: seq<byte>)
    requires v < TWO_32
    ensures |r| == 4 && BigEndian(r) == v
  {
    ShiftedValue(v);
    var r: seq<byte> :| |r| == 4 && BigEndian(r) == v;
    r
  }

  lemma ValueInverse(s: seq<byte>, at: nat)
    requires at + 4 <= |s|
    ensures Be32(ReadBe32(s, at)) == s[at..at + 4]
  {
    SameValue(s[at..at + 4], Be32(ReadBe32(s, at)));
  }

  method WriteBe32(v: nat) returns (r: seq<byte>)
    requires v < TWO_32
    ensures r == Be32(v) && ReadBe32(r, 0) == v
  {
    r := Shifted(v);
    ShiftedValue(v);
    SameValue(r, Be32(v));
    assert r[0..4] == r;
  }

  // ---------- the socket ----------

  /** A socket that still delivers `incoming` and then nothing; `sizes` decides how
      much of it each read call hands over. */
  class Socket {
    var incoming: seq<byte>
    var calls: nat
    const sizes: nat -> nat

    constructor (incoming: seq<byte>, sizes: nat -> nat)
      ensures this.incoming == incoming
    {
      this.incoming, this.sizes, this.calls := incoming, sizes, 0;
    }

    /** At least one byte unless none is left, and never more than asked for. */
    method Read(n: nat) returns (r: seq<byte>)
      requires n > 0
      modifies this
      ensures |r| <= n && old(incoming) == r + incoming
      ensures r == [] <==> old(incoming) == []
    {
      var want := 1 + sizes(calls) % n;
      var got := if want < |incoming| then want else |incoming|;
      calls := calls + 1;
      r := incoming[..got];
      incoming := incoming[got..];
    }
  }

  /** Copies `r` into the buffer behind what is there. */
  method CopyBehind(buf: array<byte>, off: nat, r: seq<byte>)
    requires off + |r| <= buf.Length
    modifies buf
    ensures buf[..off + |r|] == old(buf[..off]) + r
  {
    forall k | 0 <= k < |r| {
      buf[off + k] := r[k];
    }
    assert buf[..off] == old(buf[..off]);
    assert buf[off..off + |r|] == r;
    assert buf[..off + |r|] == buf[..off] + buf[off..off + |r|];
  }

  /** Fills `buf` from the socket in as many reads as it takes. */
  method ReadExact(sock: Socket, buf: array<byte>) returns (ok: bool)
    modifies sock, buf
    ensures ok <==> buf.Length <= |old(sock.incoming)|
    ensures ok ==> old(sock.incoming) == buf[..] + sock.incoming
  {
    var off := 0;
    ghost var all := sock.incoming;
    while off < buf.Length
      invariant 0 <= off <= buf.Length
      invariant all == buf[..off] + sock.incoming
    {
      ghost var before, rest := buf[..off], sock.incoming;
      var r := sock.Read(buf.Length - off);
      if |r| <= 0 {
        return false;
      }
      CopyBehind(buf, off, r);
      Assoc(before, r, sock.incoming);
      off := off + |r|;
    }
    assert buf[..off] == buf[..];
    ok := true;
  }

  // ---------- frames ----------

  datatype FrameResult = Frame(tag: byte, payload: seq<byte>) | Corrupt | ReadFailed

  /** The frame at the start of a byte stream. */
  function FrameOf(s: seq<byte>): FrameResult {
    if |s| < 5 then ReadFailed
    else
      var len := ReadBe32(s, 1);
      if len < 4 || len - 4 > MAX_PAYLOAD then Corrupt
      else if |s| < 1 + len then ReadFailed
      else Frame(s[0], s[5..1 + len])
  }

  /** read_frame gives the frame at the start of the stream however the reads are
      cut, and leaves the bytes after it. */
  method ReadFrame(sock: Socket) returns (r: FrameResult)
    modifies sock
    ensures r == FrameOf(old(sock.incoming))
    ensures r.Frame? ==> sock.incoming == old(sock.incoming)[5 + |r.payload|..]
  {
    var header := new byte[5];
    ghost var s := sock.incoming;
    var ok := ReadExact(sock, header);
    if !ok {
      return ReadFailed;
    }
    assert header[..] == s[..5];
    var len := ReadBe32(header[..], 1);
    HeaderValue(s, header[..]);
    if len < 4 {
      return Corrupt;
    }
    if len - 4 > MAX_PAYLOAD {
      return Corrupt;
    }
    ghost var rest := sock.incoming;
    assert rest == s[5..];
    var payload := new byte[len - 4];
    ok := ReadExact(sock, payload);
    if !ok {
      return ReadFailed;
    }
    assert payload[..] == rest[..len - 4] && sock.incoming == rest[len - 4..];
    SliceOfSlice(s, 5, len - 4);
    r := Frame(header[0], payload[..]);
  }

  lemma HeaderValue(s: seq<byte>, h: seq<byte>)
    requires |h| == 5 && h <= s
    ensures ReadBe32(h, 1) == ReadBe32(s, 1) && h[0] == s[0]
  {
    assert h[1..5] == s[1..5];
  }

  // ---------- simple query ----------

  /** The length field is 32 bits wide. */
  function LengthField(n: nat): (r: nat)
    ensures r < TWO_32
  {
    (4 + n % TWO_32 + 1) % TWO_32
  }

  lemma LengthFits(n: nat)
    requires n + 5 < TWO_32
    ensures LengthField(n) == n + 5
  {
  }

  lemma LengthWraps(n: nat)
    requires TWO_32 - 5 <= n < TWO_32 + TWO_32 - 5
    ensures LengthField(n) == n + 5 - TWO_32
  {
    if n < TWO_32 {
      assert n % TWO_32 == n;
    } else {
      assert n % TWO_32 == n - TWO_32;
    }
  }

  ghost function SimpleQuery(sql: seq<byte>): seq<byte> { [QUERY_TAG] + Be32(LengthField(|sql|)) + sql + [0] }

  lemma FrameOfQuery(sql: seq<byte>, rest: seq<byte>)
    ensures var len := LengthField(|sql|);
            FrameOf(SimpleQuery(sql) + rest)
            == if len < 4 || len - 4 > MAX_PAYLOAD then Corrupt
               else if |sql| + 1 + |rest| < len - 4 then ReadFailed
               else Frame(QUERY_TAG, (sql + [0] + rest)[..len - 4])
  {
    var len, body := LengthField(|sql|), sql + [0] + rest;
    var s := SimpleQuery(sql) + rest;
    assert s == [QUERY_TAG] + Be32(len) + body;
    assert s[1..5] == Be32(len);
    assert s[5..] == body;
    if 4 <= len <= 4 + |body| {
      SliceOfSlice(s, 5, len - 4);
    }
  }

  /** A query is read back whole exactly when it and its terminator fit the
      payload limit; what follows it on the stream does not matter. */
  lemma QueryRoundTrip(sql: seq<byte>, rest: seq<byte>)
    ensures FrameOf(SimpleQuery(sql) + rest) == Frame(QUERY_TAG, sql + [0]) <==> |sql| + 1 <= MAX_PAYLOAD
  {
    FrameOfQuery(sql, rest);
    var len := LengthField(|sql|);
    if |sql| + 1 <= MAX_PAYLOAD {
      LengthFits(|sql|);
      assert (sql + [0] + rest)[..|sql| + 1] == sql + [0];
    } else if 4 <= len <= MAX_PAYLOAD + 4 && len - 4 <= |sql| + 1 + |rest| {
      assert |(sql + [0] + rest)[..len - 4]| < |sql + [0]|;
    }
  }

  /** Past the 32-bit length the stream falls out of step: the reader takes the
      first bytes of the text for the whole message. */
  lemma HugeQueryIsCutShort(sql: seq<byte>, rest: seq<byte>)
    requires TWO_32 - 1 <= |sql| <= TWO_32 - 1 + MAX_PAYLOAD
    ensures FrameOf(SimpleQuery(sql) + rest) == Frame(QUERY_TAG, sql[..|sql| - (TWO_32 - 1)])
  {
    FrameOfQuery(sql, rest);
    var n := |sql| - (TWO_32 - 1);
    LengthWraps(|sql|);
    assert (sql + [0] + rest)[..n] == sql[..n];
  }

  method BuildSimpleQuery(sql: seq<byte>) returns (out: seq<byte>)
    ensures out == SimpleQuery(sql)
  {
    var len := (4 + |sql| % TWO_32 + 1) % TWO_32;
    out := [QUERY_TAG];
    var length := WriteBe32(len);
    out := out + length;
    out := out + sql;
    out := out + [0];
  }

  /** What a query looks like on the wire: the tag, a length that counts itself, the text, a zero. */
  lemma SampleQuery(a: byte)
    ensures SimpleQuery([a]) == [81, 0, 0, 0, 6, a, 0]
  {
    FourBytes([0, 0, 0, 6]);
    SameValue(Be32(6), [0, 0, 0, 6]);
    assert LengthField(1) == 6;
  }
}
