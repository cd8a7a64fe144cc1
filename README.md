# kom pager core in Dafny

A model of the core of `kom`, a terminal pager written in Rust: the line store that reads the
input one logical line at a time, the wrap engine that cuts stored lines into rows of at most the
terminal width, the screen context that fills the buffer for one screen and produces the text of a
screen, and the command dispatcher that maps key and mouse events to scroll operations.

- `wrappers.dfy` — `Option` and `Result` (the Rust `Option` and `anyhow::Result`).
- `buffers.dfy` — module `Buffers` (src/buffer.rs): `LineWidthDivisions`, the fold
  `RenderLineCount`, the pure chunking functions `Chunks` and `WrappedRows` that specify the row
  iterator, the `Reader` the buffer reads from, the `Buffer` class (`AppendLine`, `Lines`) and the
  `LinesIter` class (`Next`), whose ghost field `Remaining` is the list of rows still to come.
- `contexts.dfy` — module `Contexts` (src/context.rs): `VisibleRows` (what `lines()` yields),
  `ScreenText` (what `write_screen` writes), and the `Context` class (`FillBuffer`, `WriteScreen`,
  and the abstract scroll operations).
- `commands.dfy` — module `Commands` (src/command.rs): termion's key, mouse and event types, the
  decision tables `KeyAction` and `MouseAction`, the reference function `Replay` for a whole run of
  `handle_events`, and the `CommandDispatcher` class.

Modelling choices:

- A line is a `seq<char>` in which each character stands for one byte: Rust's `len()` and slicing
  count bytes.
- The reader is a `Reader` object holding the lines it has still to deliver, plus a flag saying
  whether the stream then ends in an I/O error rather than at end of stream. `read_line` gives the
  first pending line, `None` at end of stream, or the error.
- The scroll operations that the dispatcher calls (`scroll_down_line`, `scroll_up_line`,
  `scroll_down_screen`) are not defined in src/context.rs. The model makes them abstract. Each call
  is recorded in `scrollLog`. Each call reports the next flag of `scrollAnswers` (false once those
  run out) as its "changed" result. The model promises nothing about `offset`. An operation may
  change only the context object itself, so the buffer and its lines stay the same.
- The screen writer is the text written to it so far (`CommandDispatcher.screen`). The event
  source is a sequence of events, each of them possibly an I/O error.
- The empty-line edge case is kept as the code has it. `line_width_divisions("")` is 0, but the
  iterator yields one empty row for an empty line. `WrappedRowsCount` proves that the iterator
  yields exactly `render_line_count` plus the number of empty lines.

## Model

| member | source | states |
|---|---|---|
| `Buffers.LineWidthDivisions` | src/buffer.rs:34-41 | the result is the ceiling of len/width: `len <= r*width < len + width`, and it is 0 exactly for the empty line |
| `Buffers.RenderLineCount` | src/buffer.rs:27-31 | the fold `acc + line_width_divisions(line)` over the lines, first to last; it is 0 exactly when every line is empty |
| `Buffers.Chunks` | src/buffer.rs:69-80 | the rows the iterator cuts from one line, `min(len - idx, width)` bytes at a time; there is always at least one, and the first is the line's first `min(len, width)` bytes |
| `Buffers.WrappedRows` | src/buffer.rs:68-81 | every row the iterator yields: the rows of each stored line in turn, each line starting at byte 0 (a definition; its properties are the `WrappedRows…` lemmas) |
| `Buffers.RenderLineCountAppend` | src/buffer.rs:27-31 | the fold of `line_width_divisions` over two lists of lines joined together is the sum of the two folds |
| `Buffers.RenderLineCountCons` | src/buffer.rs:27-31 | adding a line in front adds its `line_width_divisions` to the fold |
| `Buffers.ChunksFlatten` | src/buffer.rs:72-79 | the rows the iterator cuts from one line, joined together, give back that line |
| `Buffers.ChunksBounded` | src/buffer.rs:73-74 | every row cut from a line has at most `width` bytes, and a row is empty only when its line is empty |
| `Buffers.ChunksCount` | src/buffer.rs:69-80 | a non-empty line yields exactly `line_width_divisions` rows; an empty line yields exactly one row |
| `Buffers.CeilingUnique` | src/buffer.rs:34-41 | only one multiple of `width` lies in `[len, len + width)`, so the row count of a line is determined |
| `Buffers.WrappedRowsAppend` | src/buffer.rs:72-79 | the rows of two lists of lines are the rows of the first followed by the rows of the second: no carry-over between lines |
| `Buffers.WrappedRowsCount` | src/buffer.rs:27-41 | the iterator yields `render_line_count` rows plus one for each empty line |
| `Buffers.WrappedRowsBounded` | src/buffer.rs:73-74 | every row the iterator yields has at most `width` bytes |
| `Buffers.WrappedRowsFlatten` | src/buffer.rs:69-80 | all rows joined together equal all lines joined together: nothing is lost or duplicated |
| `Buffers.Reader.ReadLine` | src/buffer.rs:48 | returns the first pending line and drops it; with no line pending, returns the error if the stream fails and `None` otherwise |
| `Buffers.Buffer.constructor` | src/buffer.rs:11-16 | a new buffer has no lines and keeps the reader |
| `Buffers.Buffer.AppendLine` | src/buffer.rs:47-55 | a line that was read is pushed at the end, earlier lines are unchanged, and the returned string is the new last line; at end of stream or on error the lines are unchanged; read lines followed by pending lines stay the same stream |
| `Buffers.Buffer.Lines` | src/buffer.rs:18-25 | a fresh iterator at line 0, index 0, whose remaining rows are all the wrapped rows of the stored lines |
| `Buffers.LinesIter.constructor` | src/buffer.rs:19-24 | the iterator starts at line 0, index 0, with every wrapped row still to come |
| `Buffers.LinesIter.Next` | src/buffer.rs:68-81 | keeps the iterator invariant (`currLine <= len`, inside a line `currIdx < len(line)` or `currIdx == 0`); returns `None` exactly when `currLine == len`; otherwise returns the slice at `currIdx`, of at most `width` bytes, the next remaining row, and moves to the next line exactly when that slice ends the current one |
| `Contexts.VisibleRows` | src/context.rs:22-24 | `take(height - 1)` of the iterator's rows; a one-row terminal or an empty buffer shows no rows |
| `Contexts.ScreenText` | src/context.rs:26-31 | each row followed by "\n\r", in order; the text is empty exactly when there are no rows |
| `Contexts.VisibleRowsShape` | src/context.rs:22-24 | `lines()` yields a prefix of the iterator's rows, at most `height - 1` of them, each at most `width` bytes, and all of the rows when there are fewer than `height - 1` |
| `Contexts.FullScreen` | src/context.rs:22-24 | once the `line_width_divisions` of the stored lines reach `height - 1`, `lines()` yields exactly `height - 1` rows |
| `Contexts.VisibleRowsGrow` | src/context.rs:22-24 | appending lines to the buffer never changes the rows on screen; it can only add rows below them |
| `Contexts.ScreenTextAppend` | src/context.rs:26-31 | the screen text of two lists of rows is the text of the first followed by that of the second |
| `Contexts.ScreenTextLength` | src/context.rs:26-31 | the screen text has the bytes of the rows plus two for each row |
| `Contexts.ScreenTextRow` | src/context.rs:27-29 | every row appears in the screen text followed by "\n\r", between the text of the rows before and after it |
| `Contexts.WrapExample` | src/context.rs:22-24 | at width 10 and height 5, "abcdefghijk" and "xyz" give the rows "abcdefghij", "k", "xyz" |
| `Contexts.EmptyLineExample` | src/buffer.rs:34-41 | an empty line shows as one row but adds 0 to `render_line_count` |
| `Contexts.ShortBeforeSnoc` | src/context.rs:40-42 | reading one more line while the count is still short keeps every earlier count short, and adds the new line's divisions |
| `Contexts.Context.constructor` | src/context.rs:13-20 | stores width and height, sets `offset` to 0, and starts with an empty buffer over the reader |
| `Contexts.Context.WriteScreen` | src/context.rs:26-31 | the text written is every visible row followed by "\n\r", in order |
| `Contexts.Context.FillBuffer` | src/context.rs:38-48 | only appends; the lines appended are the first pending lines, in order; reading stops at the first line that brings the count to `height - 1`, or when the reader runs dry; the error is returned exactly when the reader failed before the count was reached; with `height == 1` nothing is read; unless the reader ran dry, the screen is full afterwards |
| `Contexts.Context.ScrollDownLine` | src/command.rs:43 | abstract: records the call and reports the next supplied flag |
| `Contexts.Context.ScrollUpLine` | src/command.rs:48 | abstract: records the call and reports the next supplied flag |
| `Contexts.Context.ScrollDownScreen` | src/command.rs:53 | abstract: records the call and reports the next supplied flag |
| `Commands.KeyAction` | src/command.rs:40-58 | quit exactly for `Char('q')`; scroll down a line exactly for `j`; up a line exactly for `k`; down a screen exactly for space, Ctrl-v, `f` and Ctrl-f; every other key is ignored |
| `Commands.MouseAction` | src/command.rs:64-77 | no mouse event quits; a WheelUp press scrolls up a line, a WheelDown press scrolls down a line, and everything else is ignored |
| `Commands.EventAction` | src/command.rs:26-34 | a key event goes to the key table, a mouse event to the mouse table, and any other event is only logged; only the `q` key quits |
| `Commands.Replay` | src/command.rs:23-37 | the whole run of `handle_events` as a function of the events, the scroll flags and one screen text; a run that calls no scroll operation uses no flag and writes nothing |
| `Commands.Consumed` | src/command.rs:24-35 | `handle_events` takes events up to and including the first quit key or stream error, or all of them |
| `Commands.ReplayStopsEarly` | src/command.rs:24-35 | events after the first quit key or stream error have no effect |
| `Commands.ReplaySkipsUnsupported` | src/command.rs:33 | an unsupported event changes nothing: the run is the same as without it |
| `Commands.ReplayCounts` | src/command.rs:42-56 | a run calls at most one scroll operation per event and uses one flag per call; the text written is exactly one copy of the screen for each call that reported a change, and nothing else |
| `Commands.CommandDispatcher.constructor` | src/command.rs:19-21 | keeps the context and the writer |
| `Commands.CommandDispatcher.HandleKeyEvent` | src/command.rs:39-60 | returns true exactly for the quit key, which calls nothing; a scroll key calls its operation once and writes the screen exactly when it reported a change; for the quit key and every other key the context and the screen stay exactly as they were |
| `Commands.CommandDispatcher.HandleMouseEvent` | src/command.rs:62-80 | a wheel press calls its line scroll once and writes the screen exactly when it reported a change; on every other mouse event the context and the screen stay exactly as they were |
| `Commands.CommandDispatcher.HandleEvents` | src/command.rs:23-37 | the calls made, the flags used, the text written and the result are those of `Replay`: events are handled in order until the first quit key, and an event-stream error is returned at once |

## Left out

- src/main.rs: logger set-up, the random log-file name, the TTY check, command-line parsing,
  raw mode and the alternate screen, and opening the file or standard input are start-up plumbing.
  `parse_level` is a configuration lookup. `main` (src/main.rs:61) calls `Context::new` with four
  arguments where src/context.rs declares three.
- How termion's `read_line` splits bytes into lines, and how `tty.events()` decodes bytes into
  events: both are foreign calls. The model replaces them with a finite list of lines and a
  sequence of events.
- A reader that never ends: the modelled reader is finite, so `FillBuffer` always terminates.
  Over an endless stream of empty lines, the Rust loop would not.
- Errors from the screen writer (`write!`) and from the scroll operations: the writer and the scroll
  operations are abstract and cannot fail in the model.
- Contexts.Context.ScrollDownLine: the scroll operations are not defined in src/context.rs. The
  model states only the call record and the "changed" flag. It says nothing about `offset`, so
  offset windowing and end-of-stream handling are not modelled. It does assume that a scroll
  operation leaves the buffer alone. This is why `HandleEvents` writes the same `Page()` on every
  re-render.
- Contexts.Context.ScrollUpLine: abstract for the same reason.
- Contexts.Context.ScrollDownScreen: abstract for the same reason.
- Contexts.Context.constructor: takes one extra argument, the flags the abstract scroll
  operations will report.
- UTF-8: a line is a sequence of bytes, so a slice that would split a multi-byte character
  (a panic in Rust) is not modelled.
- Width 0 (division by zero in `line_width_divisions`) and height 0 (underflow of `height - 1`):
  the context requires width ≥ 1 and height ≥ 1.
- Logging (`info!`, `debug!`).
