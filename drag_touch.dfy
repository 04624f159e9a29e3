/**
 * The drag-and-long-press gesture machine of the floating game bar handle.
 * Raw pointer coordinates are whole pixels; the touch-slop test compares
 * squared distances instead of `hypot`. The timer thread is replaced by an
 * explicit "timer fired" event delivered only while a timer is pending.
 */
module DragGestures {

  /** A touch event: DOWN carries the raw pointer and the anchor's position at that moment. */
  datatype Event =
    | Down(rawX: int, rawY: int, anchorX: int, anchorY: int)
    | Move(rawX: int, rawY: int)
    | Up
    | OtherAction
    | TimerFired

  /** What the listener reports for one event. */
  datatype Output = Click | Moved(x: int, y: int) | DragComplete | LongPress | NoOutput

  datatype Drag = Drag(pointerStartX: int, pointerStartY: int, initialX: int, initialY: int,
                       moving: bool, longClickPerformed: bool, timerPending: bool)

  const IDLE := Drag(0, 0, 0, 0, false, false, false)

  /** The displacement is strictly beyond the touch slop. */
  predicate BeyondSlop(dx: int, dy: int, slop: nat) {
    dx * dx + dy * dy > slop * slop
  }

  /** The timer body: a long press only when neither dragging nor already fired; the timer is then gone. */
  function Fire(d: Drag): (r: (Drag, Output))
    ensures r.1 == LongPress <==> d.timerPending && !d.moving && !d.longClickPerformed
    ensures !r.0.timerPending
    ensures r.0.longClickPerformed == (d.longClickPerformed || r.1 == LongPress)
  {
    if !d.timerPending then (d, NoOutput)
    else if !d.moving && !d.longClickPerformed then (d.(longClickPerformed := true, timerPending := false), LongPress)
    else (d.(timerPending := false), NoOutput)
  }

  /** One event of `onTouch`, or the timer firing. */
  function Step(d: Drag, e: Event, slop: nat): (r: (Drag, Output))
    ensures r.1 == Click || r.1 == DragComplete ==> e.Up?
    ensures r.1.Moved? ==> e.Move? && !d.longClickPerformed
    ensures r.1 == LongPress ==> e.TimerFired?
    ensures e.OtherAction? ==> r == (d, NoOutput)
  {
    match e
    case Down(rx, ry, ax, ay) =>
      (Drag(rx, ry, ax, ay, false, false, true), NoOutput)
    case Move(rx, ry) =>
      var dx := rx - d.pointerStartX;
      var dy := ry - d.pointerStartY;
      if !d.longClickPerformed && (d.moving || BeyondSlop(dx, dy, slop)) then
        (d.(moving := true, timerPending := false), Moved(d.initialX + dx, d.initialY + dy))
      else (d, NoOutput)
    case Up =>
      var out := if !d.moving && !d.longClickPerformed then Click
                 else if d.moving && !d.longClickPerformed then DragComplete
                 else NoOutput;
      (d.(timerPending := false), out)
    case OtherAction => (d, NoOutput)
    case TimerFired => Fire(d)
  }

  /** The states reachable from `IDLE`: a drag holds no timer, and a drag and a long press exclude each other. */
  predicate Valid(d: Drag) {
    (d.moving ==> !d.timerPending) && !(d.moving && d.longClickPerformed)
  }

  lemma IdleValid()
    ensures Valid(IDLE)
  {
  }

  lemma StepValid(d: Drag, e: Event, slop: nat)
    requires Valid(d)
    ensures Valid(Step(d, e, slop).0)
  {
  }

  /** DOWN records both starts and clears the gesture flags. */
  lemma DownResets(d: Drag, rx: int, ry: int, ax: int, ay: int, slop: nat)
    ensures var (n, out) := Step(d, Down(rx, ry, ax, ay), slop);
      && n.pointerStartX == rx && n.pointerStartY == ry && n.initialX == ax && n.initialY == ay
      && !n.moving && !n.longClickPerformed && n.timerPending && out == NoOutput
  {
  }

  /** A MOVE reports the anchor start plus the displacement exactly when no long press happened and
      the drag already started or the pointer left the slop; reporting starts the drag and drops the timer. */
  lemma MoveReports(d: Drag, rx: int, ry: int, slop: nat)
    ensures var (n, out) := Step(d, Move(rx, ry), slop);
      var dx := rx - d.pointerStartX;
      var dy := ry - d.pointerStartY;
      && (out.Moved? <==> !d.longClickPerformed && (d.moving || BeyondSlop(dx, dy, slop)))
      && (out.Moved? ==> out == Moved(d.initialX + dx, d.initialY + dy) && n.moving && !n.timerPending)
      && (!out.Moved? ==> n == d && out == NoOutput)
  {
  }

  /** UP: a click exactly when neither dragging nor long-pressed, a drag completion exactly when dragging
      without a long press, and the pending timer is cancelled. */
  lemma UpOutcome(d: Drag, slop: nat)
    ensures var (n, out) := Step(d, Up, slop);
      && (out == Click <==> !d.moving && !d.longClickPerformed)
      && (out == DragComplete <==> d.moving && !d.longClickPerformed)
      && (out == NoOutput <==> d.longClickPerformed)
      && n == d.(timerPending := false)
  {
  }

  /** Only DOWN clears `moving`. */
  lemma MovingUntilDown(d: Drag, e: Event, slop: nat)
    requires d.moving && !e.Down?
    ensures Step(d, e, slop).0.moving
  {
  }

  /** Actions other than DOWN, MOVE and UP change nothing. */
  lemma OtherActionIgnored(d: Drag, slop: nat)
    ensures Step(d, OtherAction, slop) == (d, NoOutput)
  {
  }

  /** The outputs of a run of events. */
  function Run(d: Drag, es: seq<Event>, slop: nat): (r: (Drag, seq<Output>))
    ensures |r.1| == |es|
    decreases es
  {
    if es == [] then (d, [])
    else
      var (n, out) := Step(d, es[0], slop);
      var (last, outs) := Run(n, es[1..], slop);
      (last, [out] + outs)
  }

  predicate NoDown(es: seq<Event>) {
    forall i | 0 <= i < |es| :: !es[i].Down?
  }

  /** Once a long press has fired, every event up to the next DOWN reports nothing: no click, no drag. */
  lemma {:induction false} LongPressSilencesGesture(d: Drag, es: seq<Event>, slop: nat)
    requires d.longClickPerformed && NoDown(es)
    ensures Run(d, es, slop).0.longClickPerformed
    ensures forall i | 0 <= i < |es| :: Run(d, es, slop).1[i] == NoOutput
    decreases es
  {
    if es != [] {
      var n := Step(d, es[0], slop).0;
      assert n.longClickPerformed;
      assert NoDown(es[1..]) by {
        forall i | 0 <= i < |es[1..]| ensures !es[1..][i].Down? {
          assert es[1..][i] == es[i + 1];
        }
      }
      LongPressSilencesGesture(n, es[1..], slop);
    }
  }

  /** Every state reached from a valid state by a run of events is valid. */
  lemma {:induction false} RunValid(d: Drag, es: seq<Event>, slop: nat)
    requires Valid(d)
    ensures Valid(Run(d, es, slop).0)
    decreases es
  {
    if es != [] {
      StepValid(d, es[0], slop);
      RunValid(Step(d, es[0], slop).0, es[1..], slop);
    }
  }

  class DraggableTouchListener {
    const touchSlop: nat
    var pointerStartX: int
    var pointerStartY: int
    var initialX: int
    var initialY: int
    var moving: bool
    var longClickPerformed: bool
    /** Whether a long-press timer is pending: the nullable `timer` field. */
    var timerPending: bool

    constructor(touchSlop: nat)
      ensures this.touchSlop == touchSlop && State() == IDLE
    {
      this.touchSlop := touchSlop;
      pointerStartX, pointerStartY := 0, 0;
      initialX, initialY := 0, 0;
      moving, longClickPerformed := false, false;
      timerPending := false;
    }

    function State(): Drag
      reads this
    {
      Drag(pointerStartX, pointerStartY, initialX, initialY, moving, longClickPerformed, timerPending)
    }

    /** Starts a timer only when none is pending: at most one exists. */
    method ScheduleLongClickTimer()
      modifies this`timerPending
      ensures timerPending
    {
      if !timerPending {
        timerPending := true;
      }
    }

    method CancelLongClickTimer()
      modifies this`timerPending
      ensures !timerPending
    {
      timerPending := false;
    }

    /** The timer task's body. */
    method OnTimer() returns (out: Output)
      modifies this
      ensures (State(), out) == Fire(old(State()))
    {
      if !timerPending {
        return NoOutput;
      }
      out := NoOutput;
      if !moving && !longClickPerformed {
        out := LongPress;
        longClickPerformed := true;
      }
      CancelLongClickTimer();
    }

    /** `onTouch`: every event is consumed. */
    method OnTouch(e: Event) returns (consumed: bool, out: Output)
      requires !e.TimerFired?
      modifies this
      ensures consumed
      ensures (State(), out) == Step(old(State()), e, touchSlop)
    {
      out := NoOutput;
      match e {
        case Down(rx, ry, ax, ay) =>
          pointerStartX, pointerStartY := rx, ry;
          initialX, initialY := ax, ay;
          moving := false;
          longClickPerformed := false;
          ScheduleLongClickTimer();
        case Move(rx, ry) =>
          if !longClickPerformed {
            var dx := rx - pointerStartX;
            var dy := ry - pointerStartY;
            if moving || BeyondSlop(dx, dy, touchSlop) {
              CancelLongClickTimer();
              out := Moved(initialX + dx, initialY + dy);
              moving := true;
            }
          }
        case Up =>
          CancelLongClickTimer();
          if !moving && !longClickPerformed {
            out := Click;
          }
          if moving && !longClickPerformed {
            out := DragComplete;
          }
        case OtherAction =>
      }
      consumed := true;
    }
  }
}
