/**
 * One hover session of a tooltip, from a `mouseenter` on its target on.
 *
 * A session owns an abort flag, a debounced delayed show and two listeners on the
 * target: a one-shot `mouseleave` handler that hides the tooltip and aborts, and a
 * `mousemove` handler that is removed by the abort. Timers and event dispatch are
 * replaced by explicit events, applied one at a time; the debounce is the pending
 * argument of the delayed show, which every re-arming overwrites.
 */
module Hover {
  import opened Wrappers
  import opened Cursor
  import opened Binding

  /** The argument a delayed show was armed with: no event at entry, a mouse event on a move. */
  datatype MouseArg = NoEvent | MouseAt(x: int, y: int)

  /** The state a session's listeners close over. */
  datatype Session = Session(
    target: object,            // `event.target` of the `mouseenter`
    contexts: ContextArray?,   // the caller contexts passed on to `show`
    aborted: bool,
    pending: Option<MouseArg>) // the debounced call waiting for its timer, if any

  /** What can happen to a session once it exists. */
  datatype SessionEvent = Move(x: int, y: int) | TimerFire | Leave

  /** Calling the debounced `delayShow(arg)`: (re)start its timer with `arg`, dropping any earlier pending call. */
  function Arm(s: Session, arg: MouseArg): (r: Session)
    ensures r.pending == Some(arg)
    ensures r.target == s.target && r.contexts == s.contexts && r.aborted == s.aborted
  {
    s.(pending := Some(arg))
  }

  /** `onMouseEnter`: a new, not aborted session whose delayed show is armed with no event. */
  function Enter(target: object, contexts: ContextArray?): (s: Session)
    ensures s.target == target && s.contexts == contexts && !s.aborted
    ensures s.pending == Some(NoEvent)
  {
    Arm(Session(target, contexts, false, None), NoEvent)
  }

  /** The `mousemove` listener, while the abort has not removed it. */
  function OnMove(v: View, s: Session, x: int, y: int): (r: (View, Session))
    // visible: refit to the pointer plus 8 when following the cursor, otherwise nothing at all
    ensures v.visible && v.followCursor ==>
              r.1 == s && r.0 == PopoverReFit(v, Point(x + 8, y + 8))
    ensures v.visible && !v.followCursor ==> r == (v, s)
    // not visible: the tooltip is untouched and the delayed show is re-armed with this move
    ensures !v.visible ==> r.0 == v && r.1 == s.(pending := Some(MouseAt(x, y)))
  {
    if v.visible then
      (if v.followCursor then RefitToMouseEvent(v, x, y) else v, s)
    else
      (v, Arm(s, MouseAt(x, y)))
  }

  /** The debounced body running when its timer elapses, with the pending argument. */
  function OnTimer(v: View, s: Session, arg: MouseArg): (r: View)
    // the abort check: an aborted session's timer does nothing
    ensures s.aborted ==> r == v
    // otherwise show the target for the session's contexts, refitted only to a carried mouse event
    ensures !s.aborted ==>
              && SameContent(r, Show(v, s.target, s.contexts)) && SameConfig(r, v) && r.visible
              && r.popoverLog == v.popoverLog + [ShowAt(s.target)] +
                   (if v.followCursor && arg.MouseAt? then [ReFitTo(Point(arg.x + 8, arg.y + 8))] else [])
  {
    if s.aborted then v
    else
      var shown := Show(v, s.target, s.contexts);
      if shown.followCursor && arg.MouseAt? then RefitToMouseEvent(shown, arg.x, arg.y) else shown
  }

  /** How one event changes the tooltip and the session. */
  function Step(v: View, s: Session, e: SessionEvent): (r: (View, Session))
    ensures r.1.target == s.target && r.1.contexts == s.contexts
    ensures SameConfig(r.0, v)
    // once aborted, nothing reaches the tooltip: no move handler, no second leave, and a pending show does nothing
    ensures s.aborted ==> r.0 == v && r.1.aborted
    ensures s.aborted && !e.TimerFire? ==> r.1 == s
    // a leave hides the tooltip and aborts, leaving the bound content for the next show
    ensures e.Leave? && !s.aborted ==>
              && r.1 == s.(aborted := true) && !r.0.visible && SameContent(r.0, v)
              && r.0.popoverLog == v.popoverLog + [HideCall]
    // a move while visible and following the cursor refits to exactly 8 right and 8 below the pointer
    ensures e.Move? && !s.aborted && v.visible && v.followCursor ==>
              && r.1 == s && SameContent(r.0, v) && r.0.visible
              && r.0.popoverLog == v.popoverLog + [ReFitTo(Point(e.x + 8, e.y + 8))]
    // a move while visible without following the cursor changes nothing
    ensures e.Move? && !s.aborted && v.visible && !v.followCursor ==> r == (v, s)
    // a move while not visible re-arms the delayed show with this move, and does nothing else
    ensures e.Move? && !s.aborted && !v.visible ==> r.0 == v && r.1 == s.(pending := Some(MouseAt(e.x, e.y)))
    // a timer fire consumes the pending call; with none pending there is no timer and nothing happens
    ensures e.TimerFire? ==> r.1 == s.(pending := None)
    ensures e.TimerFire? && s.pending.None? ==> r.0 == v
    // a timer fire in a live session shows the target for the session's contexts,
    // then refits only when following the cursor and the call carried a mouse event
    ensures e.TimerFire? && !s.aborted && s.pending.Some? ==>
              && r.0.visible && r.0.stamped.Some? && r.0.usedContext == s.contexts
              && r.0.popoverLog == v.popoverLog + [ShowAt(s.target)] +
                   (if v.followCursor && s.pending.value.MouseAt?
                    then [ReFitTo(Point(s.pending.value.x + 8, s.pending.value.y + 8))] else [])
    // the three `show` cache paths, as in `Show`
    ensures e.TimerFire? && !s.aborted && s.pending.Some? ==> SameContent(r.0, Show(v, s.target, s.contexts))
  {
    match e
    case Move(x, y) => if s.aborted then (v, s) else OnMove(v, s, x, y)
    case TimerFire =>
      (match s.pending
       case None => (v, s)
       case Some(arg) => (OnTimer(v, s, arg), s.(pending := None)))
    case Leave => if s.aborted then (v, s) else (Hide(v), s.(aborted := true))
  }

  /**
   * Applying a sequence of events, in order. The session keeps its target and contexts, the
   * configuration never changes, and popover calls and instance operations are only ever appended.
   */
  function Run(v: View, s: Session, es: seq<SessionEvent>): (r: (View, Session))
    ensures r.1.target == s.target && r.1.contexts == s.contexts && SameConfig(r.0, v)
    ensures v.popoverLog <= r.0.popoverLog && v.binderLog <= r.0.binderLog
    decreases |es|
  {
    if es == [] then (v, s)
    else
      var r := Step(v, s, es[0]);
      Run(r.0, r.1, es[1..])
  }

  lemma {:induction false} RunAppend(v: View, s: Session, es: seq<SessionEvent>, fs: seq<SessionEvent>)
    ensures Run(v, s, es + fs) == (var r := Run(v, s, es); Run(r.0, r.1, fs))
    decreases |es|
  {
    if es == [] {
      assert es + fs == fs;
    } else {
      assert (es + fs)[0] == es[0] && (es + fs)[1..] == es[1..] + fs;
      var r := Step(v, s, es[0]);
      RunAppend(r.0, r.1, es[1..], fs);
    }
  }

  /** An aborted session never again changes the tooltip, whatever happens, and stays aborted. */
  lemma {:induction false} AbortedIsInert(v: View, s: Session, es: seq<SessionEvent>)
    requires s.aborted
    ensures Run(v, s, es).0 == v && Run(v, s, es).1.aborted
    decreases |es|
  {
    if es != [] {
      var r := Step(v, s, es[0]);
      AbortedIsInert(r.0, r.1, es[1..]);
    }
  }

  /** After a leave, the tooltip is hidden and stays exactly as the leave left it. */
  lemma {:induction false} LeaveEndsSession(v: View, s: Session, es: seq<SessionEvent>)
    requires !s.aborted
    ensures Run(v, s, [Leave] + es).0 == Hide(v)
    ensures Run(v, s, [Leave] + es).1.aborted
  {
    assert ([Leave] + es)[0] == Leave && ([Leave] + es)[1..] == es;
    AbortedIsInert(Hide(v), s.(aborted := true), es);
  }

  /** Number of `hide` calls in a popover log. */
  function Hides(log: seq<PopoverCall>): nat
    decreases |log|
  {
    if log == [] then 0 else (if log[0] == HideCall then 1 else 0) + Hides(log[1..])
  }

  lemma {:induction false} HidesAppend(a: seq<PopoverCall>, b: seq<PopoverCall>)
    ensures Hides(a + b) == Hides(a) + Hides(b)
    decreases |a|
  {
    if a == [] {
      assert a + b == b;
    } else {
      assert (a + b)[0] == a[0] && (a + b)[1..] == a[1..] + b;
      HidesAppend(a[1..], b);
    }
  }

  /** A step hides at most once, and only when it is the leave of a live session. */
  lemma StepHides(v: View, s: Session, e: SessionEvent)
    ensures Hides(Step(v, s, e).0.popoverLog) == Hides(v.popoverLog) + (if e.Leave? && !s.aborted then 1 else 0)
  {
    var r := Step(v, s, e);
    if s.aborted || (e.Move? && (!v.visible || !v.followCursor)) || (e.TimerFire? && s.pending.None?) {
    } else if e.Leave? {
      HidesAppend(v.popoverLog, [HideCall]);
    } else if e.Move? {
      HidesAppend(v.popoverLog, [ReFitTo(Point(e.x + 8, e.y + 8))]);
    } else {
      var tail := if v.followCursor && s.pending.value.MouseAt?
                  then [ReFitTo(Point(s.pending.value.x + 8, s.pending.value.y + 8))] else [];
      HidesAppend(v.popoverLog, [ShowAt(s.target)] + tail);
      HidesAppend([ShowAt(s.target)], tail);
      assert v.popoverLog + [ShowAt(s.target)] + tail == v.popoverLog + ([ShowAt(s.target)] + tail);
    }
  }

  /** The leave handler fires at most once: a session's events hide the tooltip at most once, and never after abort. */
  lemma {:induction false} LeaveFiresAtMostOnce(v: View, s: Session, es: seq<SessionEvent>)
    ensures Hides(Run(v, s, es).0.popoverLog) <= Hides(v.popoverLog) + (if s.aborted then 0 else 1)
    decreases |es|
  {
    if es != [] {
      var r := Step(v, s, es[0]);
      StepHides(v, s, es[0]);
      if s.aborted || es[0].Leave? {
        AbortedIsInert(r.0, r.1, es[1..]);
      } else {
        LeaveFiresAtMostOnce(r.0, r.1, es[1..]);
      }
    }
  }

  /**
   * Hover intent: moves over a hidden tooltip only keep postponing the delayed show.
   * They change nothing else, and the pending call is the last move.
   */
  lemma {:induction false} MovesPostponeShow(v: View, s: Session, es: seq<SessionEvent>)
    requires !s.aborted && !v.visible && |es| > 0
    requires forall i :: 0 <= i < |es| ==> es[i].Move?
    ensures Run(v, s, es) == (v, s.(pending := Some(MouseAt(es[|es| - 1].x, es[|es| - 1].y))))
    decreases |es|
  {
    var r := Step(v, s, es[0]);
    if |es| > 1 {
      MovesPostponeShow(r.0, r.1, es[1..]);
    }
  }

  /**
   * Hover intent, end to end: after moves over a hidden tooltip, the timer shows the target once,
   * refitted (when following the cursor) to the last move only.
   */
  lemma {:induction false} ShowAfterLastMove(v: View, s: Session, es: seq<SessionEvent>)
    requires !s.aborted && !v.visible && |es| > 0
    requires forall i :: 0 <= i < |es| ==> es[i].Move?
    ensures var r := Run(v, s, es + [TimerFire]);
            var last := es[|es| - 1];
            && r.0.visible && r.0.usedContext == s.contexts && r.1.pending.None?
            && r.0.popoverLog == v.popoverLog + [ShowAt(s.target)] +
                 (if v.followCursor then [ReFitTo(Point(last.x + 8, last.y + 8))] else [])
  {
    RunAppend(v, s, es, [TimerFire]);
    MovesPostponeShow(v, s, es);
  }

  /**
   * Entering and then waiting shows the target for the session's contexts, anchored at the
   * target and never refitted, because the initial arming carries no event; a leave then hides it,
   * and nothing the session receives afterwards changes the tooltip.
   */
  lemma {:induction false} EnterWaitLeave(v: View, target: object, contexts: ContextArray?, es: seq<SessionEvent>)
    ensures Run(v, Enter(target, contexts), [TimerFire]).0 == Show(v, target, contexts)
    ensures Run(v, Enter(target, contexts), [TimerFire, Leave] + es).0 == Hide(Show(v, target, contexts))
  {
    var s := Enter(target, contexts);
    var s1 := s.(pending := None);
    assert Step(v, s, TimerFire) == (Show(v, target, contexts), s1);
    assert [TimerFire, Leave] + es == [TimerFire] + ([Leave] + es);
    RunAppend(v, s, [TimerFire], [Leave] + es);
    LeaveEndsSession(Show(v, target, contexts), s1, es);
  }

  /** Every sequence of events keeps the cache invariant: one live instance, never a stale one. */
  lemma {:induction false} RunPreservesValid(v: View, s: Session, es: seq<SessionEvent>)
    requires CacheValid(v)
    ensures CacheValid(Run(v, s, es).0)
    decreases |es|
  {
    if es != [] {
      var e := es[0];
      if e.TimerFire? && !s.aborted && s.pending.Some? {
        ShowPreservesValid(v, s.target, s.contexts);
      }
      var r := Step(v, s, e);
      RunPreservesValid(r.0, r.1, es[1..]);
    }
  }
}
