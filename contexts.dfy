/**
 * The screen context of the pager (src/context.rs): terminal geometry, the line buffer, and the
 * operations that fill the buffer for one screen and produce the text of a screen.
 *
 * The scroll operations that the dispatcher calls on the context are not defined by the context
 * itself; here they are abstract: each one records that it was called and reports the "changed"
 * flag supplied, in order, by `scrollAnswers`.  They may change only the context object itself,
 * so the buffer stays as it is; nothing is promised about `offset`.
 */
module Contexts {
  import opened Wrappers
  import opened Buffers

  /** The scroll operations the dispatcher can ask of the context. */
  datatype ScrollOp = DownLine | UpLine | DownScreen

  /** The flag the next abstract scroll operation reports (false once the supplied flags run out). */
  function NextAnswer(answers: seq<bool>): bool
  {
    answers != [] && answers[0]
  }

  /** The flags left after one abstract scroll operation. */
  function LaterAnswers(answers: seq<bool>): seq<bool>
  {
    if answers == [] then [] else answers[1..]
  }

  /** A terminal dimension as `termion::terminal_size` reports it. */
  type U16 = x: int | 0 <= x < 0x1_0000

  function Min(a: nat, b: nat): nat
  {
    if a <= b then a else b
  }

  /** `lines()`: the first `height - 1` rows of the buffer's iterator (the last terminal row is not
      used for content); fewer when the buffer has fewer rows. */
  function VisibleRows(lines: seq<Line>, width: nat, height: nat): (r: seq<Line>)
    requires width > 0 && height > 0
    ensures height == 1 || lines == [] ==> r == []
  {
    var all := WrappedRows(lines, width);
    all[..Min(height - 1, |all|)]
  }

  /** The text `write_screen` writes: every row followed by "\n\r". */
  function ScreenText(rows: seq<Line>): (s: string)
    ensures s == [] <==> rows == []
  {
    if rows == [] then [] else ScreenText(rows[..|rows| - 1]) + rows[|rows| - 1] + "\n\r"
  }

  /** Number of characters in a list of rows. */
  function TotalLength(rows: seq<Line>): nat
  {
    if rows == [] then 0 else |rows[0]| + TotalLength(rows[1..])
  }

  /** The visible rows are at most a screenful, each at most `width` wide, taken from the start of
      the iterator's rows; they are the whole iterator output when it is shorter than a screen. */
  lemma VisibleRowsShape(lines: seq<Line>, width: nat, height: nat)
    requires width > 0 && height > 0
    ensures var v := VisibleRows(lines, width, height);
            var all := WrappedRows(lines, width);
            |v| <= height - 1 && v <= all &&
            (|v| == height - 1 || v == all) &&
            forall i :: 0 <= i < |v| ==> |v[i]| <= width
  {
    WrappedRowsBounded(lines, width);
  }

  /** Once the lines' `line_width_divisions` add up to a screenful, the screen is full. */
  lemma FullScreen(lines: seq<Line>, width: nat, height: nat)
    requires width > 0 && height > 0
    requires RenderLineCount(lines, width) >= height - 1
    ensures |VisibleRows(lines, width, height)| == height - 1
  {
    WrappedRowsCount(lines, width);
  }

  /** Appending lines to the buffer never changes the rows already on screen; it can only add
      rows below them. */
  lemma VisibleRowsGrow(lines: seq<Line>, more: seq<Line>, width: nat, height: nat)
    requires width > 0 && height > 0
    ensures VisibleRows(lines, width, height) <= VisibleRows(lines + more, width, height)
  {
    WrappedRowsAppend(lines, more, width);
  }

  /** The screen text of two lists of rows is the text of the first followed by that of the second. */
  lemma {:induction false} ScreenTextAppend(a: seq<Line>, b: seq<Line>)
    ensures ScreenText(a + b) == ScreenText(a) + ScreenText(b)
    decreases |b|
  {
    if b == [] {
      assert a + b == a;
    } else {
      var b' := b[..|b| - 1];
      assert (a + b)[..|a + b| - 1] == a + b';
      ScreenTextAppend(a, b');
    }
  }

  /** The screen text holds the characters of the rows plus two for each row's "\n\r". */
  lemma {:induction false} ScreenTextLength(rows: seq<Line>)
    ensures |ScreenText(rows)| == TotalLength(rows) + 2 * |rows|
    decreases |rows|
  {
    if rows != [] {
      ScreenTextLength(rows[..|rows| - 1]);
      TotalLengthSnoc(rows[..|rows| - 1], rows[|rows| - 1]);
      assert rows[..|rows| - 1] + [rows[|rows| - 1]] == rows;
    }
  }

  lemma {:induction false} TotalLengthSnoc(rows: seq<Line>, row: Line)
    ensures TotalLength(rows + [row]) == TotalLength(rows) + |row|
    decreases |rows|
  {
    if rows != [] {
      assert (rows + [row])[1..] == rows[1..] + [row];
      TotalLengthSnoc(rows[1..], row);
    }
  }

  /** Every row of a screen text is followed by "\n\r", between the text of the rows before it and
      the text of the rows after it. */
  lemma {:induction false} ScreenTextRow(rows: seq<Line>, i: nat)
    requires i < |rows|
    ensures ScreenText(rows) == ScreenText(rows[..i]) + rows[i] + "\n\r" + ScreenText(rows[i + 1..])
  {
    var upTo, after := rows[..i + 1], rows[i + 1..];
    assert upTo[..|upTo| - 1] == rows[..i] && upTo[|upTo| - 1] == rows[i];
    assert ScreenText(upTo) == ScreenText(rows[..i]) + rows[i] + "\n\r";
    ScreenTextAppend(upTo, after);
    assert upTo + after == rows;
  }

  /** No proper prefix of `added` reaches `need` rows by `line_width_divisions`: reading stopped at
      the first line that made the count reach it. */
  ghost predicate ShortBefore(added: seq<Line>, width: nat, need: nat)
    requires width > 0
  {
    forall j :: 0 <= j < |added| ==> RenderLineCount(added[..j], width) < need
  }

  /** Reading one more line while still short keeps every proper prefix short. */
  lemma ShortBeforeSnoc(added: seq<Line>, line: Line, width: nat, need: nat)
    requires width > 0
    requires ShortBefore(added, width, need) && RenderLineCount(added, width) < need
    ensures ShortBefore(added + [line], width, need)
    ensures RenderLineCount(added + [line], width) == RenderLineCount(added, width) + LineWidthDivisions(line, width)
  {
    var longer := added + [line];
    assert longer[..|added|] == added;
    forall j | 0 <= j < |longer|
      ensures RenderLineCount(longer[..j], width) < need
    {
      if j < |added| {
        assert longer[..j] == added[..j];
      }
    }
  }

  /** A prefix of at most `n` rows that is either `n` long or everything is the first `Min(n, ..)` rows. */
  lemma TakePrefix(all: seq<Line>, taken: seq<Line>, rest: seq<Line>, n: nat)
    requires all == taken + rest
    requires |taken| <= n && (|taken| == n || rest == [])
    ensures taken == all[..Min(n, |all|)]
  {
  }

  /** At width 10 and height 5, the lines "abcdefghijk" and "xyz" fill three of the four content
      rows. */
  lemma WrapExample()
    ensures VisibleRows(["abcdefghijk", "xyz"], 10, 5) == ["abcdefghij", "k", "xyz"]
    ensures RenderLineCount(["abcdefghijk", "xyz"], 10) == 3
  {
    var lines: seq<Line> := ["abcdefghijk", "xyz"];
    assert lines[1..] == ["xyz"];
    assert "abcdefghijk"[..10] == "abcdefghij" && "abcdefghijk"[10..] == "k";
    assert lines[..1] == ["abcdefghijk"];
  }

  /** An empty line takes one row on screen but adds nothing to `render_line_count`. */
  lemma EmptyLineExample()
    ensures VisibleRows(["", "ab"], 10, 5) == ["", "ab"]
    ensures RenderLineCount(["", "ab"], 10) == 1
  {
  }

  /** `Context<R>`: the buffer, the terminal width and height, and an `offset` that nothing reads. */
  class Context {
    const buffer: Buffer
    const width: nat
    const height: nat
    var offset: nat
    var scrollAnswers: seq<bool>
    var scrollLog: seq<ScrollOp>

    ghost predicate Valid()
      reads this
    {
      width > 0 && height > 0
    }

    /** `Context::new`: an empty buffer over `reader`, offset 0.  `answers` supplies the flags the
        abstract scroll operations report. */
    constructor (width: U16, height: U16, reader: Reader, answers: seq<bool>)
      requires width > 0 && height > 0
      ensures Valid() && fresh(buffer)
      ensures this.width == width && this.height == height && offset == 0
      ensures buffer.lines == [] && buffer.reader == reader
      ensures scrollAnswers == answers && scrollLog == []
    {
      buffer := new Buffer(reader);
      this.width := width;
      this.height := height;
      offset := 0;
      scrollAnswers := answers;
      scrollLog := [];
    }

    /** `write_screen`: the text of the visible rows, each followed by "\n\r". */
    method WriteScreen() returns (out: string)
      requires Valid()
      ensures out == ScreenText(VisibleRows(buffer.lines, width, height))
    {
      var it := buffer.Lines(width);
      ghost var all := WrappedRows(buffer.lines, width);
      ghost var emitted: seq<Line> := [];
      out := [];
      var taken := 0;
      while taken < height - 1
        invariant it.Valid() && it.lines == buffer.lines && it.width == width
        invariant taken <= height - 1 && taken == |emitted|
        invariant all == emitted + it.Remaining
        invariant out == ScreenText(emitted)
        decreases height - 1 - taken
      {
        var row := it.Next();
        if row.None? {
          break;
        }
        assert (emitted + [row.value])[..|emitted|] == emitted;
        out := out + row.value + "\n\r";
        emitted := emitted + [row.value];
        taken := taken + 1;
      }
      TakePrefix(all, emitted, it.Remaining, height - 1);
    }

    /** `fill_buffer`: read lines until the rows `line_width_divisions` gives the lines read in this
        call add up to `height - 1`, or the reader is exhausted or fails. */
    method FillBuffer() returns (r: Result<()>)
      requires Valid()
      modifies buffer, buffer.reader
      ensures buffer.reader.fails == old(buffer.reader.fails)
      ensures |old(buffer.lines)| <= |buffer.lines|
      ensures buffer.lines[..|old(buffer.lines)|] == old(buffer.lines)
      ensures var added := buffer.lines[|old(buffer.lines)|..];
              old(buffer.reader.pending) == added + buffer.reader.pending &&
              ShortBefore(added, width, height - 1) &&
              (RenderLineCount(added, width) < height - 1 ==> buffer.reader.pending == []) &&
              (r.Err? <==> RenderLineCount(added, width) < height - 1 && buffer.reader.fails)
      ensures height == 1 ==> buffer.lines == old(buffer.lines) && r == Ok(())
      ensures buffer.reader.pending != [] ==> |VisibleRows(buffer.lines, width, height)| == height - 1
    {
      var cnt := 0;
      ghost var added: seq<Line> := [];
      while cnt < height - 1
        invariant buffer.reader.fails == old(buffer.reader.fails)
        invariant buffer.lines == old(buffer.lines) + added
        invariant old(buffer.reader.pending) == added + buffer.reader.pending
        invariant cnt == RenderLineCount(added, width)
        invariant ShortBefore(added, width, height - 1)
        decreases |buffer.reader.pending|
      {
        var line := buffer.AppendLine();
        if line.Err? {
          assert buffer.lines[|old(buffer.lines)|..] == added;
          return Err;
        }
        if line.value.None? {
          break;
        }
        var l := line.value.value;
        ShortBeforeSnoc(added, l, width, height - 1);
        cnt := cnt + LineWidthDivisions(l, width);
        added := added + [l];
      }
      assert buffer.lines[|old(buffer.lines)|..] == added;
      if buffer.reader.pending != [] {
        RenderLineCountAppend(old(buffer.lines), added, width);
        FullScreen(buffer.lines, width, height);
      }
      return Ok(());
    }

    /** One abstract scroll operation: records `op` and reports the next supplied flag. */
    method Scroll(op: ScrollOp) returns (changed: bool)
      modifies this
      ensures scrollLog == old(scrollLog) + [op]
      ensures changed == NextAnswer(old(scrollAnswers))
      ensures scrollAnswers == LaterAnswers(old(scrollAnswers))
    {
      scrollLog := scrollLog + [op];
      changed := NextAnswer(scrollAnswers);
      scrollAnswers := LaterAnswers(scrollAnswers);
    }

    /** `scroll_down_line` (abstract). */
    method ScrollDownLine() returns (changed: bool)
      modifies this
      ensures scrollLog == old(scrollLog) + [DownLine]
      ensures changed == NextAnswer(old(scrollAnswers))
      ensures scrollAnswers == LaterAnswers(old(scrollAnswers))
    {
      changed := Scroll(DownLine);
    }

    /** `scroll_up_line` (abstract). */
    method ScrollUpLine() returns (changed: bool)
      modifies this
      ensures scrollLog == old(scrollLog) + [UpLine]
      ensures changed == NextAnswer(old(scrollAnswers))
      ensures scrollAnswers == LaterAnswers(old(scrollAnswers))
    {
      changed := Scroll(UpLine);
    }

    /** `scroll_down_screen` (abstract). */
    method ScrollDownScreen() returns (changed: bool)
      modifies this
      ensures scrollLog == old(scrollLog) + [DownScreen]
      ensures changed == NextAnswer(old(scrollAnswers))
      ensures scrollAnswers == LaterAnswers(old(scrollAnswers))
    {
      changed := Scroll(DownScreen);
    }
  }
}
