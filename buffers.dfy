/**
 * The line store and wrap engine of the pager (src/buffer.rs).
 *
 * A `Buffer` owns a reader and an append-only list of the logical lines read so far.
 * `Buffer.Lines(width)` hands out a `LinesIter` that cuts every stored line into rows of at most
 * `width` characters, restarting at column 0 on every line.  Each character of a `Line` stands for
 * one byte of the Rust `String`, whose `len()` and slicing count bytes.
 */
module Buffers {
  import opened Wrappers

  type Line = seq<char>

  /** Number of terminal rows `line_width_divisions` assigns to a line: the ceiling of len / width.
      An empty line gets 0 rows here, although the iterator yields one empty row for it. */
  function LineWidthDivisions(line: Line, width: nat): (r: nat)
    requires width > 0
    ensures r == 0 <==> |line| == 0
    ensures |line| <= r * width < |line| + width
  {
    var len := |line|;
    if len % width == 0 then len / width else len / width + 1
  }

  /** `render_line_count`: the fold `acc + line_width_divisions(line, width)` over the lines, first to last. */
  function RenderLineCount(lines: seq<Line>, width: nat): (r: nat)
    requires width > 0
    ensures r == 0 <==> forall i :: 0 <= i < |lines| ==> lines[i] == []
  {
    if lines == [] then 0
    else RenderLineCount(lines[..|lines| - 1], width) + LineWidthDivisions(lines[|lines| - 1], width)
  }

  /** The rows the iterator yields for one line: chunks of `width` characters, the last one possibly
      shorter; an empty line yields a single empty row. */
  function Chunks(line: Line, width: nat): (r: seq<Line>)
    requires width > 0
    ensures r != [] && r[0] == line[..if |line| <= width then |line| else width]
    decreases |line|
  {
    if |line| <= width then [line] else [line[..width]] + Chunks(line[width..], width)
  }

  /** All rows the iterator yields for a list of lines: the chunks of each line, line after line. */
  function WrappedRows(lines: seq<Line>, width: nat): seq<Line>
    requires width > 0
  {
    if lines == [] then [] else Chunks(lines[0], width) + WrappedRows(lines[1..], width)
  }

  /** Concatenation of a list of rows. */
  function Flatten(rows: seq<Line>): Line
  {
    if rows == [] then [] else rows[0] + Flatten(rows[1..])
  }

  /** Number of empty lines in a list of lines. */
  function EmptyLines(lines: seq<Line>): nat
  {
    if lines == [] then 0 else (if lines[0] == [] then 1 else 0) + EmptyLines(lines[1..])
  }

  /** The fold over the lines splits over a concatenation. */
  lemma {:induction false} RenderLineCountAppend(a: seq<Line>, b: seq<Line>, width: nat)
    requires width > 0
    ensures RenderLineCount(a + b, width) == RenderLineCount(a, width) + RenderLineCount(b, width)
    decreases |b|
  {
    if b == [] {
      assert a + b == a;
    } else {
      var b' := b[..|b| - 1];
      assert (a + b)[..|a + b| - 1] == a + b';
      assert (a + b)[|a + b| - 1] == b[|b| - 1];
      RenderLineCountAppend(a, b', width);
    }
  }

  /** Adding a line at the front adds its divisions. */
  lemma RenderLineCountCons(x: Line, rest: seq<Line>, width: nat)
    requires width > 0
    ensures RenderLineCount([x] + rest, width) == LineWidthDivisions(x, width) + RenderLineCount(rest, width)
  {
    RenderLineCountAppend([x], rest, width);
    assert [x][..0] == [];
  }

  /** The chunks of a line, put back together, give the line. */
  lemma {:induction false} ChunksFlatten(line: Line, width: nat)
    requires width > 0
    ensures Flatten(Chunks(line, width)) == line
    decreases |line|
  {
    if |line| <= width {
      assert Flatten([line]) == line + Flatten([]);
    } else {
      var rest := Chunks(line[width..], width);
      ChunksFlatten(line[width..], width);
      assert ([line[..width]] + rest)[1..] == rest;
      assert line[..width] + line[width..] == line;
    }
  }

  /** Every chunk has at most `width` characters, and only an empty line gives an empty chunk. */
  lemma {:induction false} ChunksBounded(line: Line, width: nat)
    requires width > 0
    ensures forall i :: 0 <= i < |Chunks(line, width)| ==>
              |Chunks(line, width)[i]| <= width && (Chunks(line, width)[i] == [] ==> line == [])
    decreases |line|
  {
    if |line| > width {
      ChunksBounded(line[width..], width);
      var cs := Chunks(line, width);
      forall i | 0 <= i < |cs|
        ensures |cs[i]| <= width && (cs[i] == [] ==> line == [])
      {
        if i > 0 {
          assert cs[i] == Chunks(line[width..], width)[i - 1];
        }
      }
    }
  }

  /** A non-empty line yields exactly `line_width_divisions` rows; an empty line yields one row. */
  lemma {:induction false} ChunksCount(line: Line, width: nat)
    requires width > 0
    ensures |Chunks(line, width)| == if line == [] then 1 else LineWidthDivisions(line, width)
    decreases |line|
  {
    if |line| > width {
      ChunksCount(line[width..], width);
      var n := LineWidthDivisions(line[width..], width);
      assert (n + 1) * width == n * width + width;
      CeilingUnique(|line|, width, n + 1, LineWidthDivisions(line, width));
    } else if line != [] {
      CeilingUnique(|line|, width, 1, LineWidthDivisions(line, width));
    }
  }

  /** At most one multiple of `width` lies in [len, len + width). */
  lemma CeilingUnique(len: nat, width: nat, m: nat, n: nat)
    requires width > 0
    requires len <= m * width < len + width
    requires len <= n * width < len + width
    ensures m == n
  {
    if m < n {
      MultipleGap(m, n - m, width);
    } else if n < m {
      MultipleGap(n, m - n, width);
    }
  }

  /** Multiples of `width` that differ in their factor lie at least `width` apart. */
  lemma MultipleGap(m: nat, k: nat, width: nat)
    requires k >= 1
    ensures (m + k) * width >= m * width + width
  {
  }

  /** The rows of two lists of lines are the rows of the first followed by the rows of the second. */
  lemma {:induction false} WrappedRowsAppend(a: seq<Line>, b: seq<Line>, width: nat)
    requires width > 0
    ensures WrappedRows(a + b, width) == WrappedRows(a, width) + WrappedRows(b, width)
    decreases |a|
  {
    if a == [] {
      assert a + b == b;
    } else {
      assert (a + b)[0] == a[0];
      assert (a + b)[1..] == a[1..] + b;
      WrappedRowsAppend(a[1..], b, width);
    }
  }

  /** render_line_count and the iterator disagree by exactly the number of empty lines:
      the iterator yields one row per empty line, line_width_divisions counts none. */
  lemma {:induction false} WrappedRowsCount(lines: seq<Line>, width: nat)
    requires width > 0
    ensures |WrappedRows(lines, width)| == RenderLineCount(lines, width) + EmptyLines(lines)
    decreases |lines|
  {
    if lines != [] {
      WrappedRowsCount(lines[1..], width);
      ChunksCount(lines[0], width);
      RenderLineCountCons(lines[0], lines[1..], width);
      assert [lines[0]] + lines[1..] == lines;
    }
  }

  /** Every row the iterator yields over a list of lines has at most `width` characters. */
  lemma {:induction false} WrappedRowsBounded(lines: seq<Line>, width: nat)
    requires width > 0
    ensures forall i :: 0 <= i < |WrappedRows(lines, width)| ==> |WrappedRows(lines, width)[i]| <= width
    decreases |lines|
  {
    if lines != [] {
      ChunksBounded(lines[0], width);
      WrappedRowsBounded(lines[1..], width);
      var cs := Chunks(lines[0], width);
      var rs := WrappedRows(lines, width);
      forall i | 0 <= i < |rs|
        ensures |rs[i]| <= width
      {
        if i >= |cs| {
          assert rs[i] == WrappedRows(lines[1..], width)[i - |cs|];
        }
      }
    }
  }

  /** The rows of all lines, put back together, give the lines put back together: nothing is lost or carried over. */
  lemma {:induction false} WrappedRowsFlatten(lines: seq<Line>, width: nat)
    requires width > 0
    ensures Flatten(WrappedRows(lines, width)) == Flatten(lines)
    decreases |lines|
  {
    if lines != [] {
      WrappedRowsFlatten(lines[1..], width);
      ChunksFlatten(lines[0], width);
      FlattenAppend(Chunks(lines[0], width), WrappedRows(lines[1..], width));
    }
  }

  lemma {:induction false} FlattenAppend(a: seq<Line>, b: seq<Line>)
    ensures Flatten(a + b) == Flatten(a) + Flatten(b)
    decreases |a|
  {
    if a == [] {
      assert a + b == b;
    } else {
      assert (a + b)[1..] == a[1..] + b;
      FlattenAppend(a[1..], b);
    }
  }

  /** The source of lines a `Buffer` reads from, standing for termion's `read_line` on the input
      stream: the lines still to come, and whether the stream ends in an I/O error rather than
      at end of stream. */
  class Reader {
    var pending: seq<Line>
    var fails: bool

    constructor (pending: seq<Line>, fails: bool)
      ensures this.pending == pending && this.fails == fails
    {
      this.pending := pending;
      this.fails := fails;
    }

    /** The next line, `None` at end of stream, or an error. */
    method ReadLine() returns (r: Result<Option<Line>>)
      modifies this
      ensures fails == old(fails)
      ensures old(pending) != [] ==> r == Ok(Some(old(pending)[0])) && pending == old(pending)[1..]
      ensures old(pending) == [] ==> pending == [] && r == (if fails then Err else Ok(None))
    {
      if pending != [] {
        r := Ok(Some(pending[0]));
        pending := pending[1..];
      } else if fails {
        r := Err;
      } else {
        r := Ok(None);
      }
    }
  }

  /** `Buffer<R>`: the lines read so far, in read order, and the reader they came from. */
  class Buffer {
    var lines: seq<Line>
    const reader: Reader

    /** `Buffer::new`: no lines yet. */
    constructor (reader: Reader)
      ensures lines == [] && this.reader == reader
    {
      lines := [];
      this.reader := reader;
    }

    /** `append_line`: read one line and push it; the lines read so far followed by those still
        pending stay the same stream. */
    method AppendLine() returns (r: Result<Option<Line>>)
      modifies this, reader
      ensures reader.fails == old(reader.fails)
      ensures lines + reader.pending == old(lines + reader.pending)
      ensures old(reader.pending) != [] ==>
                lines == old(lines) + [old(reader.pending)[0]] && reader.pending == old(reader.pending)[1..] &&
                r == Ok(Some(lines[|lines| - 1]))
      ensures old(reader.pending) == [] ==>
                lines == old(lines) && r == (if reader.fails then Err else Ok(None))
    {
      var line := reader.ReadLine();
      match line
      case Ok(Some(l)) =>
        lines := lines + [l];
        r := Ok(Some(lines[|lines| - 1]));
      case Ok(None) =>
        r := Ok(None);
      case Err =>
        r := Err;
    }

    /** `lines(width)`: a fresh iterator over the rows of the lines stored now. */
    method Lines(width: nat) returns (it: LinesIter)
      requires width > 0
      ensures fresh(it) && it.Valid()
      ensures it.lines == lines && it.width == width && it.currLine == 0 && it.currIdx == 0
      ensures it.Remaining == WrappedRows(lines, width)
    {
      it := new LinesIter(lines, width);
    }
  }

  /** `Lines<'a>`: the row iterator.  `currLine` is the line being cut, `currIdx` the byte where
      its next row starts; the ghost field `Remaining` is the list of rows still to be yielded. */
  class LinesIter {
    const lines: seq<Line>
    const width: nat
    var currLine: nat
    var currIdx: nat
    ghost var Remaining: seq<Line>

    /** Between calls: the iterator is at most one past the last line, and inside a line it stands
        before a character of it, or at index 0 of an empty line; the rows still to come are the
        chunks of the rest of the current line followed by the rows of the lines after it. */
    ghost predicate Valid()
      reads this
    {
      width > 0 &&
      currLine <= |lines| &&
      (currLine < |lines| ==> currIdx < |lines[currLine]| || currIdx == 0) &&
      Remaining == RowsFrom(lines, width, currLine, currIdx)
    }

    constructor (lines: seq<Line>, width: nat)
      requires width > 0
      ensures Valid() && this.lines == lines && this.width == width
      ensures currLine == 0 && currIdx == 0
      ensures Remaining == WrappedRows(lines, width)
    {
      this.lines := lines;
      this.width := width;
      currLine := 0;
      currIdx := 0;
      Remaining := WrappedRows(lines, width);
      new;
      assert lines != [] ==> lines[0][0..] == lines[0];
    }

    /** `next`: the next row, or `None` exactly when every line has been visited. */
    method Next() returns (r: Option<Line>)
      requires Valid()
      modifies this
      ensures Valid()
      ensures r.None? <==> old(currLine) == |lines|
      ensures r.None? <==> old(Remaining) == []
      ensures r.None? ==> currLine == old(currLine) && currIdx == old(currIdx) && Remaining == old(Remaining)
      ensures r.Some? ==> old(Remaining) == [r.value] + Remaining
      ensures r.Some? ==> |r.value| <= width && (r.value == [] ==> lines[old(currLine)] == [])
      ensures r.Some? ==> old(currIdx) + |r.value| <= |lines[old(currLine)]| &&
                          r.value == lines[old(currLine)][old(currIdx)..old(currIdx) + |r.value|]
      ensures r.Some? ==> if old(currIdx) + |r.value| == |lines[old(currLine)]|
                          then currLine == old(currLine) + 1 && currIdx == 0
                          else currLine == old(currLine) && currIdx == old(currIdx) + |r.value|
    {
      if currLine == |lines| {
        return None;
      }
      var line := lines[currLine];
      var renderWidth := if |line| - currIdx < width then |line| - currIdx else width;
      var renderStr := line[currIdx..currIdx + renderWidth];
      ghost var suffix := line[currIdx..];
      assert Chunks(suffix, width) != [];
      currIdx := currIdx + renderWidth;
      if currIdx == |line| {
        assert renderStr == suffix && Chunks(suffix, width) == [suffix];
        currLine := currLine + 1;
        currIdx := 0;
        if currLine < |lines| {
          assert lines[currLine][0..] == lines[currLine];
          assert lines[currLine..][0] == lines[currLine];
          assert lines[currLine..][1..] == lines[currLine + 1..];
        }
      } else {
        assert |suffix| > width && renderStr == suffix[..width];
        assert Chunks(suffix, width) == [suffix[..width]] + Chunks(suffix[width..], width);
        assert suffix[width..] == line[currIdx..];
      }
      Remaining := Remaining[1..];
      r := Some(renderStr);
    }
  }

  /** The rows an iterator standing at byte `idx` of line `cur` has still to yield. */
  ghost function RowsFrom(lines: seq<Line>, width: nat, cur: nat, idx: nat): seq<Line>
    requires width > 0 && cur <= |lines| && (cur < |lines| ==> idx <= |lines[cur]|)
  {
    if cur == |lines| then []
    else Chunks(lines[cur][idx..], width) + WrappedRows(lines[cur + 1..], width)
  }
}
