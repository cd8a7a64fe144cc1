/**
 * The command dispatcher of the pager (src/command.rs): it reads terminal events in order, maps
 * keys and mouse-wheel presses to scroll operations of the context, re-renders the screen when an
 * operation reports a change, and stops at the quit key.
 *
 * The event stream (termion's `tty.events()`) is a sequence of events, each of which may instead
 * be an I/O error; the screen writer is the text written to it so far.
 */
module Commands {
  import opened Wrappers
  import opened Buffers
  import opened Contexts

  /** termion's `Key`. */
  datatype Key =
    | Backspace | Left | Right | Up | Down | Home | End | PageUp | PageDown | BackTab
    | Delete | Insert | F(n: nat) | Char(c: char) | Alt(c: char) | Ctrl(c: char) | Null | Esc

  /** termion's `MouseButton`. */
  datatype MouseButton = LeftButton | RightButton | MiddleButton | WheelUp | WheelDown | WheelLeft | WheelRight

  /** termion's `MouseEvent`, with its terminal coordinates. */
  datatype MouseEvent =
    | Press(button: MouseButton, x: U16, y: U16)
    | Release(x: U16, y: U16)
    | Hold(x: U16, y: U16)

  /** termion's `Event`; `Unsupported` carries the raw bytes termion could not decode. */
  datatype Event = KeyEvent(key: Key) | Mouse(mouse: MouseEvent) | Unsupported(bytes: seq<int>)

  /** What an event asks of the dispatcher. */
  datatype Action = Quit | Scroll(op: ScrollOp) | Ignore

  /** The key table of `handle_key_event`. */
  function KeyAction(key: Key): (a: Action)
    ensures a == Quit <==> key == Char('q')
    ensures a == Scroll(DownLine) <==> key == Char('j')
    ensures a == Scroll(UpLine) <==> key == Char('k')
    ensures a == Scroll(DownScreen) <==> key in {Char(' '), Ctrl('v'), Char('f'), Ctrl('f')}
    ensures a == Ignore <==> key !in {Char('q'), Char('j'), Char('k'), Char(' '), Ctrl('v'), Char('f'), Ctrl('f')}
  {
    match key
    case Char('q') => Quit
    case Char('j') => Scroll(DownLine)
    case Char('k') => Scroll(UpLine)
    case Char(' ') | Ctrl('v') | Char('f') | Ctrl('f') => Scroll(DownScreen)
    case _ => Ignore
  }

  /** The button table of `handle_mouse_event`: only wheel presses scroll, and no mouse event quits. */
  function MouseAction(ev: MouseEvent): (a: Action)
    ensures a != Quit
    ensures a == Scroll(UpLine) <==> ev.Press? && ev.button == WheelUp
    ensures a == Scroll(DownLine) <==> ev.Press? && ev.button == WheelDown
    ensures a == Ignore <==> !(ev.Press? && ev.button in {WheelUp, WheelDown})
  {
    match ev
    case Press(WheelUp, _, _) => Scroll(UpLine)
    case Press(WheelDown, _, _) => Scroll(DownLine)
    case _ => Ignore
  }

  /** What an event asks of the dispatcher; unsupported events are only logged. */
  function EventAction(ev: Event): (a: Action)
    ensures a == Quit ==> ev == KeyEvent(Char('q'))
    ensures ev.Unsupported? ==> a == Ignore
  {
    match ev
    case KeyEvent(key) => KeyAction(key)
    case Mouse(m) => MouseAction(m)
    case Unsupported(_) => Ignore
  }

  /** What a run of the dispatcher did: the scroll operations it called, in order, the scroll flags
      it left unused, the text it wrote to the screen, and how `handle_events` returned. */
  datatype Trace = Trace(ops: seq<ScrollOp>, answers: seq<bool>, out: string, status: Result<()>)

  /** `handle_events` as a function of the event stream, the flags the scroll operations report,
      and the text of one screen `page`: events are handled in order; a scroll event calls its
      operation and writes `page` when that reports a change; the quit key ends the run at once,
      and an error from the event stream ends it with that error. */
  function Replay(events: seq<Result<Event>>, answers: seq<bool>, page: string): (t: Trace)
    ensures t.ops == [] ==> t.answers == answers && t.out == []
    decreases |events|
  {
    if events == [] then Trace([], answers, [], Ok(()))
    else match events[0]
      case Err => Trace([], answers, [], Err)
      case Ok(ev) =>
        match EventAction(ev)
        case Quit => Trace([], answers, [], Ok(()))
        case Ignore => Replay(events[1..], answers, page)
        case Scroll(op) =>
          var rest := Replay(events[1..], LaterAnswers(answers), page);
          Trace([op] + rest.ops, rest.answers,
                (if NextAnswer(answers) then page else []) + rest.out, rest.status)
  }

  /** Number of events `handle_events` takes from the stream: up to and including the first quit
      key or stream error, or all of them. */
  function Consumed(events: seq<Result<Event>>): (n: nat)
    ensures n <= |events|
    ensures forall i :: 0 <= i < n - 1 ==> events[i].Ok? && EventAction(events[i].value) != Quit
    ensures n < |events| ==> n > 0 && (events[n - 1].Err? || EventAction(events[n - 1].value) == Quit)
    decreases |events|
  {
    if events == [] then 0
    else if events[0].Err? || EventAction(events[0].value) == Quit then 1
    else 1 + Consumed(events[1..])
  }

  /** Nothing after the quit key or a stream error has any effect. */
  lemma {:induction false} ReplayStopsEarly(events: seq<Result<Event>>, answers: seq<bool>, page: string)
    ensures Replay(events, answers, page) == Replay(events[..Consumed(events)], answers, page)
    decreases |events|
  {
    if events != [] {
      var n := Consumed(events);
      var head := events[..n];
      assert head[0] == events[0];
      if events[0].Ok? && EventAction(events[0].value) != Quit {
        ReplayStopsEarly(events[1..], LaterAnswers(answers), page);
        ReplayStopsEarly(events[1..], answers, page);
        assert head[1..] == events[1..][..Consumed(events[1..])];
      }
    }
  }

  /** An unsupported event changes nothing: the run is the same as without it. */
  lemma {:induction false} ReplaySkipsUnsupported(before: seq<Result<Event>>, bytes: seq<int>,
                                                    after: seq<Result<Event>>, answers: seq<bool>, page: string)
    ensures Replay(before + [Ok(Unsupported(bytes))] + after, answers, page) == Replay(before + after, answers, page)
    decreases |before|
  {
    var with := before + [Ok(Unsupported(bytes))] + after;
    if before == [] {
      assert with[1..] == after;
      assert before + after == after;
    } else {
      assert with[0] == (before + after)[0] == before[0];
      assert with[1..] == before[1..] + [Ok(Unsupported(bytes))] + after;
      assert (before + after)[1..] == before[1..] + after;
      ReplaySkipsUnsupported(before[1..], bytes, after, answers, page);
      ReplaySkipsUnsupported(before[1..], bytes, after, LaterAnswers(answers), page);
    }
  }

  /** Every screen write follows a scroll operation that reported a change: the run calls at most
      one operation per event and writes one page per changed report, no more. */
  lemma {:induction false} ReplayCounts(events: seq<Result<Event>>, answers: seq<bool>, page: string)
    ensures var t := Replay(events, answers, page);
            |t.ops| <= |events| &&
            |t.out| == |page| * Changes(answers, |t.ops|) &&
            t.out == Pages(page, Changes(answers, |t.ops|)) &&
            t.answers == Drop(answers, |t.ops|)
    decreases |events|
  {
    if events != [] && events[0].Ok? {
      match EventAction(events[0].value)
      case Quit =>
      case Ignore =>
        ReplayCounts(events[1..], answers, page);
      case Scroll(op) =>
        var later := LaterAnswers(answers);
        ReplayCounts(events[1..], later, page);
        var t := Replay(events[1..], later, page);
        var c := Changes(later, |t.ops|);
        var w := if NextAnswer(answers) then page else [];
        assert Replay(events, answers, page) == Trace([op] + t.ops, t.answers, w + t.out, t.status);
        assert Changes(answers, |t.ops| + 1) == (if NextAnswer(answers) then 1 else 0) + c;
        assert Drop(answers, |t.ops| + 1) == Drop(later, |t.ops|);
        assert |w + t.out| == |page| * Changes(answers, |t.ops| + 1) by {
          if NextAnswer(answers) {
            assert |page| * (1 + c) == |page| + |page| * c;
          }
        }
        assert w + t.out == Pages(page, Changes(answers, |t.ops| + 1)) by {
          if NextAnswer(answers) {
            assert Pages(page, 1 + c) == page + Pages(page, c);
          }
        }
    }
  }

  /** Number of `true` flags among the first `n` scroll reports. */
  function Changes(answers: seq<bool>, n: nat): nat
  {
    if n == 0 then 0 else (if NextAnswer(answers) then 1 else 0) + Changes(LaterAnswers(answers), n - 1)
  }

  /** `n` copies of the screen text `page`, one after the other. */
  function Pages(page: string, n: nat): string
  {
    if n == 0 then [] else page + Pages(page, n - 1)
  }

  /** The flags left after `n` scroll reports. */
  function Drop(answers: seq<bool>, n: nat): seq<bool>
  {
    if n == 0 then answers else Drop(LaterAnswers(answers), n - 1)
  }

  /** `CommandDispatcher`: the context it drives and the text written to the screen so far. */
  class CommandDispatcher {
    const ctx: Context
    var screen: string

    constructor (ctx: Context, screen: string)
      ensures this.ctx == ctx && this.screen == screen
    {
      this.ctx := ctx;
      this.screen := screen;
    }

    /** The text of one screen of the context, what `write_screen` writes. */
    ghost function Page(): string
      reads ctx, ctx.buffer
      requires ctx.Valid()
    {
      ScreenText(VisibleRows(ctx.buffer.lines, ctx.width, ctx.height))
    }

    /** `handle_key_event`: the quit key returns true and does nothing else; a scroll key calls its
        scroll operation and re-renders only when the operation reports a change; every other key
        does nothing. */
    method HandleKeyEvent(key: Key) returns (quit: bool)
      requires ctx.Valid()
      modifies this, ctx
      ensures quit <==> KeyAction(key) == Quit
      ensures match KeyAction(key)
              case Scroll(op) =>
                ctx.scrollLog == old(ctx.scrollLog) + [op] &&
                ctx.scrollAnswers == LaterAnswers(old(ctx.scrollAnswers)) &&
                screen == old(screen) + (if NextAnswer(old(ctx.scrollAnswers)) then Page() else [])
              case _ =>
                unchanged(ctx) && screen == old(screen)
    {
      var changed := false;
      match key {
        case Char('q') =>
          return true;
        case Char('j') =>
          changed := ctx.ScrollDownLine();
        case Char('k') =>
          changed := ctx.ScrollUpLine();
        case Char(' ') | Ctrl('v') | Char('f') | Ctrl('f') =>
          changed := ctx.ScrollDownScreen();
        case _ =>
      }
      if changed {
        var text := ctx.WriteScreen();
        screen := screen + text;
      }
      return false;
    }

    /** `handle_mouse_event`: a wheel-up press scrolls up a line, a wheel-down press scrolls down a
        line, each re-rendering only on a reported change; any other mouse event does nothing. */
    method HandleMouseEvent(ev: MouseEvent)
      requires ctx.Valid()
      modifies this, ctx
      ensures match MouseAction(ev)
              case Scroll(op) =>
                ctx.scrollLog == old(ctx.scrollLog) + [op] &&
                ctx.scrollAnswers == LaterAnswers(old(ctx.scrollAnswers)) &&
                screen == old(screen) + (if NextAnswer(old(ctx.scrollAnswers)) then Page() else [])
              case _ =>
                unchanged(ctx) && screen == old(screen)
    {
      if ev.Press? {
        var changed := false;
        match ev.button {
          case WheelUp =>
            changed := ctx.ScrollUpLine();
          case WheelDown =>
            changed := ctx.ScrollDownLine();
          case _ =>
        }
        if changed {
          var text := ctx.WriteScreen();
          screen := screen + text;
        }
      }
    }

    /** `handle_events`: handle the events in order until the quit key, an error from the event
        stream, or the end of the stream. */
    method HandleEvents(events: seq<Result<Event>>) returns (r: Result<()>)
      requires ctx.Valid()
      modifies this, ctx
      ensures var t := Replay(events, old(ctx.scrollAnswers), Page());
              ctx.scrollLog == old(ctx.scrollLog) + t.ops && ctx.scrollAnswers == t.answers &&
              screen == old(screen) + t.out && r == t.status
    {
      ghost var page := Page();
      ghost var whole := Replay(events, ctx.scrollAnswers, page);
      for i := 0 to |events|
        invariant Page() == page
        invariant var t := Replay(events[i..], ctx.scrollAnswers, page);
                  old(ctx.scrollLog) + whole.ops == ctx.scrollLog + t.ops &&
                  whole.answers == t.answers && old(screen) + whole.out == screen + t.out &&
                  whole.status == t.status
      {
        assert events[i..][0] == events[i] && events[i..][1..] == events[i + 1..];
        match events[i] {
          case Err =>
            return Err;
          case Ok(KeyEvent(key)) =>
            var quit := HandleKeyEvent(key);
            if quit {
              break;
            }
          case Ok(Mouse(m)) =>
            HandleMouseEvent(m);
          case Ok(Unsupported(_)) =>
        }
      }
      return Ok(());
    }
  }
}
