/** COPY TO line by line: the stream arrives in chunks cut anywhere, and the sink
    sees lines that do not depend on the cuts. */
module CopyLines {

  /** What one read of the COPY stream gives. Empty data is the end of the stream. */
  datatype Chunk = Data(bytes: string) | Broken

  datatype Verdict = Completed | Refused | ReadFailed

  // ---------- lines of a stream ----------

  /** Complete lines so far, and the unterminated rest. */
  datatype Split = Split(lines: seq<string>, tail: string)

  function Feed(st: Split, s: string): Split
    decreases |s|
  {
    if s == [] then st
    else Feed(if s[0] == '\n' then Split(st.lines + [st.tail], []) else Split(st.lines, st.tail + [s[0]]), s[1..])
  }

  function SplitLines(s: string): Split { Feed(Split([], []), s) }

  function Joined(lines: seq<string>): string
    decreases |lines|
  {
    if lines == [] then [] else Joined(lines[..|lines| - 1]) + lines[|lines| - 1] + ['\n']
  }

  ghost predicate NoNewline(s: string) { '\n' !in s }

  /** The split is the newline split: it gives the stream back, and no line contains a newline. */
  lemma {:induction false} FeedIsNewlineSplit(st: Split, s: string)
    requires NoNewline(st.tail) && forall i | 0 <= i < |st.lines| :: NoNewline(st.lines[i])
    ensures var r := Feed(st, s);
            && Joined(r.lines) + r.tail == Joined(st.lines) + st.tail + s
            && NoNewline(r.tail) && forall i | 0 <= i < |r.lines| :: NoNewline(r.lines[i])
    decreases |s|
  {
    if s == [] {
      assert Joined(st.lines) + st.tail + s == Joined(st.lines) + st.tail;
    } else {
      var next := if s[0] == '\n' then Split(st.lines + [st.tail], []) else Split(st.lines, st.tail + [s[0]]);
      assert s == [s[0]] + s[1..];
      assert (st.lines + [st.tail])[..|st.lines|] == st.lines;
      assert Joined(next.lines) + next.tail == Joined(st.lines) + st.tail + [s[0]];
      FeedIsNewlineSplit(next, s[1..]);
      assert Joined(st.lines) + st.tail + [s[0]] + s[1..] == Joined(st.lines) + st.tail + s;
    }
  }

  lemma SplitLinesIsNewlineSplit(s: string)
    ensures var r := SplitLines(s);
            && Joined(r.lines) + r.tail == s
            && NoNewline(r.tail) && forall i | 0 <= i < |r.lines| :: NoNewline(r.lines[i])
  {
    FeedIsNewlineSplit(Split([], []), s);
  }

  lemma {:induction false} FeedConcat(st: Split, a: string, b: string)
    ensures Feed(st, a + b) == Feed(Feed(st, a), b)
    decreases |a|
  {
    if a == [] {
      assert a + b == b;
    } else {
      var next := if a[0] == '\n' then Split(st.lines + [st.tail], []) else Split(st.lines, st.tail + [a[0]]);
      assert (a + b)[1..] == a[1..] + b;
      FeedConcat(next, a[1..], b);
    }
  }

  lemma {:induction false} FeedNoNewline(st: Split, s: string)
    requires NoNewline(s)
    ensures Feed(st, s) == Split(st.lines, st.tail + s)
    decreases |s|
  {
    if s == [] {
      assert st.tail + s == st.tail;
    } else {
      FeedNoNewline(Split(st.lines, st.tail + [s[0]]), s[1..]);
      assert st.tail + [s[0]] + s[1..] == st.tail + s;
    }
  }

  lemma {:induction false} FeedOnlyAppends(st: Split, s: string)
    ensures st.lines <= Feed(st, s).lines
    decreases |s|
  {
    if s != [] {
      FeedOnlyAppends(if s[0] == '\n' then Split(st.lines + [st.tail], []) else Split(st.lines, st.tail + [s[0]]), s[1..]);
    }
  }

  /** It is the only such split. */
  lemma NewlineSplitIsUnique(lines: seq<string>, tail: string)
    requires NoNewline(tail) && forall i | 0 <= i < |lines| :: NoNewline(lines[i])
    ensures SplitLines(Joined(lines) + tail) == Split(lines, tail)
  {
    FeedConcat(Split([], []), Joined(lines), tail);
    FeedJoined(lines);
    FeedNoNewline(Split(lines, []), tail);
  }

  lemma {:induction false} FeedJoined(lines: seq<string>)
    requires forall i | 0 <= i < |lines| :: NoNewline(lines[i])
    ensures SplitLines(Joined(lines)) == Split(lines, [])
    decreases |lines|
  {
    if lines != [] {
      var init := lines[..|lines| - 1];
      var last := lines[|lines| - 1];
      FeedJoined(init);
      FeedConcat(Split([], []), Joined(init) + last, ['\n']);
      FeedConcat(Split([], []), Joined(init), last);
      FeedNoNewline(Split(init, []), last);
      assert [] + last == last && init + [last] == lines;
      FeedOneNewline(Split(init, last));
    }
  }

  // ---------- what a sink sees ----------

  /** keep(l) answers the last line of l, given all lines the sink saw so far. */
  type Sink = seq<string> -> bool

  predicate AllKept(lines: seq<string>, keep: Sink) {
    forall i | 0 < i <= |lines| :: keep(lines[..i])
  }

  /** The lines up to and including the first one the sink refuses. */
  function Seen(lines: seq<string>, keep: Sink, n: nat): seq<string>
    requires n <= |lines|
    decreases |lines| - n
  {
    if n == |lines| then lines
    else if keep(lines[..n + 1]) then Seen(lines, keep, n + 1)
    else lines[..n + 1]
  }

  lemma {:induction false} SeenWhenKept(lines: seq<string>, keep: Sink, n: nat)
    requires n <= |lines| && AllKept(lines, keep)
    ensures Seen(lines, keep, n) == lines
    decreases |lines| - n
  {
    if n < |lines| { SeenWhenKept(lines, keep, n + 1); }
  }

  /** Once a line is refused, later lines make no difference. */
  lemma {:induction false} SeenWhenRefused(seen: seq<string>, lines: seq<string>, keep: Sink, n: nat)
    requires n < |seen| && seen <= lines
    requires AllKept(seen[..|seen| - 1], keep) && !keep(seen)
    ensures Seen(lines, keep, n) == seen
    decreases |lines| - n
  {
    assert lines[..n + 1] == seen[..n + 1];
    if n + 1 < |seen| {
      assert seen[..|seen| - 1][..n + 1] == seen[..n + 1];
      SeenWhenRefused(seen, lines, keep, n + 1);
    } else {
      assert seen[..n + 1] == seen;
    }
  }

  /** The sink sees the lines in order and all of them, or up to one it refuses. */
  lemma {:induction false} SeenUpToRefusal(lines: seq<string>, keep: Sink, n: nat)
    requires n <= |lines| && AllKept(lines[..n], keep)
    ensures var seen := Seen(lines, keep, n);
            && n <= |seen| && seen <= lines
            && (AllKept(lines, keep) ==> seen == lines)
            && (!AllKept(lines, keep) ==> seen != [] && !keep(seen) && AllKept(seen[..|seen| - 1], keep))
    decreases |lines| - n
  {
    if n < |lines| {
      var more := lines[..n + 1];
      assert more[..n] == lines[..n];
      if keep(more) {
        forall i | 0 < i <= |more| ensures keep(more[..i]) {
          if i <= n { assert more[..i] == lines[..n][..i]; } else { assert more[..i] == more; }
        }
        SeenUpToRefusal(lines, keep, n + 1);
      }
    } else {
      assert lines[..n] == lines;
    }
  }

  // ---------- the chunk sink ----------

  method FindNewline(s: string, pos: nat) returns (nl: nat)
    requires pos <= |s|
    ensures pos <= nl <= |s| && NoNewline(s[pos..nl]) && (nl < |s| ==> s[nl] == '\n')
  {
    nl := pos;
    while nl < |s| && s[nl] != '\n'
      invariant pos <= nl <= |s| && NoNewline(s[pos..nl])
    {
      nl := nl + 1;
    }
  }

  /** The sink saw everything the stream completed so far, and carries the rest;
      or it refused a line and saw nothing after it. */
  ghost predicate Tracks(st: Split, seen: seq<string>, carry: string, refused: bool, keep: Sink) {
    if refused then seen != [] && seen <= st.lines && AllKept(seen[..|seen| - 1], keep) && !keep(seen)
    else seen == st.lines && carry == st.tail && AllKept(seen, keep)
  }

  lemma KeptExtends(seen: seq<string>, line: string, keep: Sink)
    requires AllKept(seen, keep)
    ensures keep(seen + [line]) ==> AllKept(seen + [line], keep)
    ensures AllKept((seen + [line])[..|seen|], keep)
  {
    var all := seen + [line];
    assert all[..|seen|] == seen;
    if keep(all) {
      forall i | 0 < i <= |all|
        ensures keep(all[..i])
      {
        if i <= |seen| { assert all[..i] == seen[..i]; } else { assert all[..i] == all; }
      }
    }
  }

  /** One chunk: lines completed by it go to the sink, the rest is carried over. */
  method ChunkSink(chunk: string, seen: seq<string>, carry: string, keep: Sink, ghost st: Split)
    returns (seen': seq<string>, carry': string, kept: bool)
    requires Tracks(st, seen, carry, false, keep)
    ensures Tracks(Feed(st, chunk), seen', carry', !kept, keep)
  {
    seen', carry' := seen, carry;
    var pos := 0;
    assert chunk[..0] == [];
    while pos < |chunk|
      invariant 0 <= pos <= |chunk|
      invariant Tracks(Feed(st, chunk[..pos]), seen', carry', false, keep)
      decreases |chunk| - pos
    {
      ghost var before := Feed(st, chunk[..pos]);
      var nl := FindNewline(chunk, pos);
      assert chunk[..nl] == chunk[..pos] + chunk[pos..nl];
      FeedConcat(st, chunk[..pos], chunk[pos..nl]);
      FeedNoNewline(before, chunk[pos..nl]);
      if nl == |chunk| {
        carry' := carry' + chunk[pos..];
        assert chunk[..nl] == chunk && chunk[pos..nl] == chunk[pos..];
        return seen', carry', true;
      }
      var line := if carry' != [] then carry' + chunk[pos..nl] else chunk[pos..nl];
      assert line == before.tail + chunk[pos..nl];
      assert chunk[..nl + 1] == chunk[..nl] + ['\n'];
      FeedConcat(st, chunk[..nl], ['\n']);
      FeedOneNewline(Feed(st, chunk[..nl]));
      KeptExtends(seen', line, keep);
      seen' := seen' + [line];
      carry' := [];
      if !keep(seen') {
        assert chunk == chunk[..nl + 1] + chunk[nl + 1..];
        FeedConcat(st, chunk[..nl + 1], chunk[nl + 1..]);
        FeedOnlyAppends(Feed(st, chunk[..nl + 1]), chunk[nl + 1..]);
        return seen', carry', false;
      }
      pos := nl + 1;
    }
    assert chunk[..pos] == chunk;
    kept := true;
  }

  lemma FeedOneNewline(st: Split)
    ensures Feed(st, ['\n']) == Split(st.lines + [st.tail], [])
  {
    assert ['\n'][1..] == [];
  }

  // ---------- the whole stream ----------

  /** The bytes received before the stream ends or breaks. */
  function Received(chunks: seq<Chunk>): string
    decreases |chunks|
  {
    if chunks == [] || chunks[0].Broken? || chunks[0].bytes == [] then []
    else chunks[0].bytes + Received(chunks[1..])
  }

  predicate Breaks(chunks: seq<Chunk>)
    decreases |chunks|
  {
    chunks != [] && (chunks[0].Broken? || (chunks[0].bytes != [] && Breaks(chunks[1..])))
  }

  /** The lines of the stream: a last one without newline counts if it is not
      empty, and only when the stream ends properly. */
  function StreamLines(chunks: seq<Chunk>): seq<string> {
    var r := SplitLines(Received(chunks));
    if Breaks(chunks) || r.tail == [] then r.lines else r.lines + [r.tail]
  }

  lemma JoinedSnoc(lines: seq<string>, line: string)
    ensures Joined(lines + [line]) == Joined(lines) + line + ['\n']
  {
    assert (lines + [line])[..|lines|] == lines;
  }

  predicate EndsLine(s: string) { s == [] || s[|s| - 1] == '\n' }

  lemma TailIsUnended(lines: seq<string>, tail: string)
    requires NoNewline(tail)
    ensures tail == [] <==> EndsLine(Joined(lines) + tail)
  {
    var s := Joined(lines) + tail;
    if tail == [] {
      assert s == Joined(lines);
      if lines != [] {
        var init, last := lines[..|lines| - 1], lines[|lines| - 1];
        assert lines == init + [last];
        JoinedSnoc(init, last);
      }
    } else {
      assert s[|s| - 1] == tail[|tail| - 1] && tail[|tail| - 1] in tail;
    }
  }

  /** The lines are those of the bytes received: put together again with a newline after each
      they are the stream, a missing last newline added; of a broken stream they are what
      its last newline ends. */
  lemma StreamLinesAre(chunks: seq<Chunk>)
    ensures var s, lines := Received(chunks), StreamLines(chunks);
            && (Breaks(chunks) ==> Joined(lines) <= s && NoNewline(s[|Joined(lines)|..]))
            && (!Breaks(chunks) && EndsLine(s) ==> Joined(lines) == s)
            && (!Breaks(chunks) && !EndsLine(s) ==> Joined(lines) == s + ['\n'])
  {
    var r := SplitLines(Received(chunks));
    SplitLinesIsNewlineSplit(Received(chunks));
    TailIsUnended(r.lines, r.tail);
    JoinedSnoc(r.lines, r.tail);
    assert (Joined(r.lines) + r.tail)[|Joined(r.lines)|..] == r.tail;
  }

  lemma StreamLinesAreLines(chunks: seq<Chunk>, i: nat)
    requires i < |StreamLines(chunks)|
    ensures NoNewline(StreamLines(chunks)[i])
  {
    SplitLinesIsNewlineSplit(Received(chunks));
  }

  /** copy_to_lines: the sink sees the lines of the stream, whatever the cuts,
      up to and including the first it refuses; refusing does not stop the
      reading, so the connection stays usable. */
  method CopyToLines(chunks: seq<Chunk>, keep: Sink) returns (seen: seq<string>, verdict: Verdict, drained: nat)
    ensures seen == Seen(StreamLines(chunks), keep, 0)
    ensures verdict.ReadFailed? <==> Breaks(chunks)
    ensures verdict.Completed? <==> !Breaks(chunks) && AllKept(StreamLines(chunks), keep)
    ensures drained <= |chunks| && (drained < |chunks| ==> chunks[drained].Broken? || chunks[drained].bytes == [])
  {
    var carry := [];
    var refused := false;
    seen, drained := [], 0;
    ghost var st := Split([], []);
    ghost var end := SplitLines(Received(chunks));
    while drained < |chunks| && chunks[drained].Data? && chunks[drained].bytes != []
      invariant 0 <= drained <= |chunks|
      invariant Tracks(st, seen, carry, refused, keep)
      invariant Feed(st, Received(chunks[drained..])) == end && Breaks(chunks[drained..]) == Breaks(chunks)
    {
      var bytes := chunks[drained].bytes;
      assert chunks[drained..][0] == chunks[drained] && chunks[drained..][1..] == chunks[drained + 1..];
      FeedConcat(st, bytes, Received(chunks[drained + 1..]));
      if !refused {
        var kept;
        seen, carry, kept := ChunkSink(bytes, seen, carry, keep, st);
        refused := !kept;
      } else {
        FeedOnlyAppends(st, bytes);
      }
      st := Feed(st, bytes);
      drained := drained + 1;
    }
    assert st == end;
    seen, verdict := Conclude(seen, carry, refused, drained < |chunks| && chunks[drained].Broken?, keep, st);
  }

  /** The end of the stream: a carried last line goes to the sink unless a line was refused. */
  method Conclude(seen: seq<string>, carry: string, refused: bool, broken: bool, keep: Sink, ghost st: Split)
    returns (seen': seq<string>, verdict: Verdict)
    requires Tracks(st, seen, carry, refused, keep)
    ensures var lines := if broken || st.tail == [] then st.lines else st.lines + [st.tail];
            && seen' == Seen(lines, keep, 0)
            && (verdict.ReadFailed? <==> broken)
            && (verdict.Completed? <==> !broken && AllKept(lines, keep))
  {
    ghost var lines := if broken || st.tail == [] then st.lines else st.lines + [st.tail];
    seen' := seen;
    if refused {
      SeenWhenRefused(seen, lines, keep, 0);
      assert lines[..|seen|] == seen;
      verdict := if broken then ReadFailed else Verdict.Refused;
    } else if broken {
      SeenWhenKept(seen, keep, 0);
      verdict := ReadFailed;
    } else if carry == [] {
      SeenWhenKept(seen, keep, 0);
      verdict := Completed;
    } else {
      KeptExtends(seen, carry, keep);
      seen' := seen + [carry];
      if keep(seen') {
        SeenWhenKept(seen', keep, 0);
        verdict := Completed;
      } else {
        SeenWhenRefused(seen', lines, keep, 0);
        assert lines[..|lines|] == seen';
        verdict := Verdict.Refused;
      }
    }
  }
}
