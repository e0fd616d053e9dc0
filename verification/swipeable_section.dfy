/** The swipeable section: a current index into the section's children, moved
    by one by a horizontal drag past a threshold, or set by clicking an indicator. */
module SwipeableSection {
  import opened Js

  /** The direction reported to the `onSwipe` callback. */
  datatype Direction = Left | Right

  /** The pan distance, in pixels, a drag must exceed to count as a swipe. */
  const Threshold: real := 50.0

  /** The index starts at the first child. */
  const InitialIndex: int := 0

  /** The index after a drag ends, and the direction reported to `onSwipe`, if any. */
  datatype DragOutcome = DragOutcome(index: int, swiped: Option<Direction>)

  /** `handleDragEnd` with `count` children and horizontal pan offset `offsetX`. */
  function DragEnd(index: int, count: int, offsetX: real): (r: DragOutcome)
    ensures r.swiped == Some(Right) <==> offsetX > Threshold && index > 0
    ensures r.swiped == Some(Left) <==> offsetX < -Threshold && index < count - 1
    ensures r.swiped == Some(Right) ==> r.index == index - 1
    ensures r.swiped == Some(Left) ==> r.index == index + 1
    ensures r.swiped == None ==> r.index == index
  {
    if offsetX > Threshold && index > 0 then DragOutcome(index - 1, Some(Right))
    else if offsetX < -Threshold && index < count - 1 then DragOutcome(index + 1, Some(Left))
    else DragOutcome(index, None)
  }

  /** Something the user does to the section. */
  datatype Event = Drag(offsetX: real) | Click(target: int)

  /** The index after one event; a click on indicator `target` selects that child. */
  function Step(index: int, count: int, e: Event): (r: int)
    ensures e.Drag? ==> index - 1 <= r <= index + 1
    ensures e.Drag? && 0 <= index < count ==> 0 <= r < count
    ensures e.Click? ==> r == e.target
  {
    match e
    case Drag(offsetX) => DragEnd(index, count, offsetX).index
    case Click(target) => target
  }

  /** The indicators are drawn one per child, so a click names an existing child. */
  predicate ValidEvents(count: int, events: seq<Event>) {
    forall i :: 0 <= i < |events| ==> (events[i].Click? ==> 0 <= events[i].target < count)
  }

  /** The number of drags among the events; only a drag can fire the swipe callback. */
  function Drags(events: seq<Event>): (n: nat)
    ensures n <= |events|
    ensures (forall i :: 0 <= i < |events| ==> events[i].Click?) ==> n == 0
    decreases |events|
  {
    if |events| == 0 then 0
    else (if events[0].Drag? then 1 else 0) + Drags(events[1..])
  }

  /** The index and the callbacks fired after a sequence of events. */
  datatype Trace = Trace(index: int, swipes: seq<Direction>)

  function Run(index: int, count: int, events: seq<Event>): (r: Trace)
    ensures |r.swipes| <= Drags(events) <= |events|
    ensures (forall i :: 0 <= i < |events| ==> events[i].Click?) ==> r.swipes == []
    decreases |events|
  {
    if |events| == 0 then Trace(index, [])
    else
      var next := Step(index, count, events[0]);
      var swiped := if events[0].Drag? then DragEnd(index, count, events[0].offsetX).swiped else None;
      var rest := Run(next, count, events[1..]);
      Trace(rest.index, (if swiped.Some? then [swiped.value] else []) + rest.swipes)
  }

  /** The first event decides the next index and callback: a click selects its target
      and fires nothing, a drag moves as `DragEnd` decides and fires its direction, if any. */
  lemma RunFirstEvent(index: int, count: int, events: seq<Event>)
    requires |events| > 0
    ensures events[0].Click? ==> Run(index, count, events) == Run(events[0].target, count, events[1..])
    ensures events[0].Drag? ==>
              (var o := DragEnd(index, count, events[0].offsetX);
               var rest := Run(o.index, count, events[1..]);
               Run(index, count, events).index == rest.index &&
               Run(index, count, events).swipes == (if o.swiped.Some? then [o.swiped.value] else []) + rest.swipes)
  {
  }

  /** A drag that stays within the threshold either way changes nothing and reports nothing. */
  lemma SmallDragIgnored(index: int, count: int, offsetX: real)
    requires -Threshold <= offsetX <= Threshold
    ensures DragEnd(index, count, offsetX) == DragOutcome(index, None)
  {
  }

  /** With at least one child, one event keeps the index on a child. */
  lemma StepInRange(index: int, count: int, e: Event)
    requires 0 <= index < count
    requires e.Click? ==> 0 <= e.target < count
    ensures 0 <= Step(index, count, e) < count
  {
  }

  /** With at least one child, any sequence of drags and indicator clicks keeps
      the index on a child. */
  lemma {:induction false} RunInRange(index: int, count: int, events: seq<Event>)
    requires 0 <= index < count
    requires ValidEvents(count, events)
    ensures 0 <= Run(index, count, events).index < count
    ensures |Run(index, count, events).swipes| <= |events|
    decreases |events|
  {
    if |events| > 0 {
      StepInRange(index, count, events[0]);
      assert ValidEvents(count, events[1..]) by {
        forall i | 0 <= i < |events[1..]|
          ensures events[1..][i].Click? ==> 0 <= events[1..][i].target < count
        {
          assert events[1..][i] == events[i + 1];
        }
      }
      RunInRange(Step(index, count, events[0]), count, events[1..]);
    }
  }

  /** Starting from the initial index, the index always names a child. */
  lemma FromInitialInRange(count: int, events: seq<Event>)
    requires count >= 1
    requires ValidEvents(count, events)
    ensures 0 <= Run(InitialIndex, count, events).index < count
  {
    RunInRange(InitialIndex, count, events);
  }

  /** A section without children offers no indicators, and no drag moves its index off 0. */
  lemma {:induction false} EmptySectionStaysAtZero(events: seq<Event>)
    requires forall i :: 0 <= i < |events| ==> events[i].Drag?
    ensures Run(0, 0, events) == Trace(0, [])
    decreases |events|
  {
    if |events| > 0 {
      EmptySectionStaysAtZero(events[1..]);
    }
  }

  function LeftSwipes(k: nat): (r: seq<Event>)
    ensures |r| == k
  {
    seq(k, _ => Drag(-(Threshold + 1.0)))
  }

  /** `k` left swipes from index `index` advance it by `k`, stopping at the last child,
      and report one "left" per move. */
  lemma {:induction false} LeftSwipesAdvance(index: int, count: int, k: nat)
    requires 0 <= index < count
    ensures Run(index, count, LeftSwipes(k)).index == if index + k < count then index + k else count - 1
    ensures |Run(index, count, LeftSwipes(k)).swipes| == if index + k < count then k else count - 1 - index
    decreases k
  {
    if k > 0 {
      assert LeftSwipes(k)[1..] == LeftSwipes(k - 1);
      LeftSwipesAdvance(Step(index, count, LeftSwipes(k)[0]), count, k - 1);
    }
  }
}
