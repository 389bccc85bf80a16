/**
 * The dynamic two-button input filter.  Button 1 flips the navigation target
 * between two fixed points (or, while the session is paused, resumes it);
 * holding button 2 backs off.  On every timer tick the filter hands the model
 * one point: the back-off point, the current target, or a point moving from
 * the centre of the canvas towards the target during the first thousand time
 * units after the last press.
 */
module SwitchFilter {
  import opened Parameters
  import opened Interpolation
  import opened SessionInterface

  /** A point on the model's canvas, as handed to Tap_on_display. */
  datatype Point = Point(x: int, y: int)

  /** The two targets, indexed by the filter's target number: the arrays
      the constructor fills and nothing changes afterwards. */
  const TargetX: seq<int> := [100, 100]
  const TargetY: seq<int> := [100, 3996]

  /** Where the filter steers while button 2 is held. */
  const BackOffPoint: Point := Point(3096, 2048)

  /** Button identifiers. */
  const PrimaryButton: int := 1
  const BackOffButton: int := 2

  /** The two targets: the top-left corner for target 0, the bottom-left
      corner for target 1. */
  function TargetPoint(target: nat): (p: Point)
    requires target < 2
    ensures target == 0 ==> p == Point(100, 100)
    ensures target == 1 ==> p == Point(100, 3996)
  {
    Point(TargetX[target], TargetY[target])
  }

  /** The point handed to the model at `time`: back-off wins; otherwise the
      target itself when the steady style is on, when no press has started
      the dynamics, or when more than a window has passed since the press;
      otherwise the interpolation from the centre towards the target. */
  function FrameTarget(backOff: bool, steady: bool, started: bool, target: nat,
                       keyTime: int, time: int): (p: Point)
    requires target < 2
    ensures backOff ==> p == BackOffPoint
    ensures !backOff && (steady || !started || time - keyTime > Window) ==> p == TargetPoint(target)
    ensures !backOff && !steady && started && time - keyTime <= Window ==>
      p == Point(Interpolate(time - keyTime, TargetX[target]),
                 Interpolate(time - keyTime, TargetY[target]))
    ensures !backOff && keyTime <= time ==> 100 <= p.x <= Centre && 100 <= p.y <= 3996
  {
    if backOff then BackOffPoint
    else if steady || !started || time - keyTime > Window then TargetPoint(target)
    else
      InterpolateBetween(time - keyTime, TargetX[target]);
      InterpolateBetween(time - keyTime, TargetY[target]);
      Point(Interpolate(time - keyTime, TargetX[target]),
            Interpolate(time - keyTime, TargetY[target]))
  }

  /** Right after a press the point is the centre of the canvas, whichever
      target was chosen. */
  lemma PressStartsAtCentre(target: nat, keyTime: int)
    requires target < 2
    ensures FrameTarget(false, false, true, target, keyTime, keyTime) == Point(Centre, Centre)
  {
  }

  /** One window after the press the point reaches the target, so the
      switch to the raw target one unit later is seamless. */
  lemma WindowEndReachesTarget(target: nat, keyTime: int)
    requires target < 2
    ensures FrameTarget(false, false, true, target, keyTime, keyTime + Window)
         == TargetPoint(target)
    ensures FrameTarget(false, false, true, target, keyTime, keyTime + Window + 1)
         == TargetPoint(target)
  {
  }

  /** During the window each coordinate only moves towards the target. */
  lemma FrameTargetApproaches(target: nat, keyTime: int, t1: int, t2: int)
    requires target < 2
    requires keyTime <= t1 <= t2 <= keyTime + Window
    ensures var p1 := FrameTarget(false, false, true, target, keyTime, t1);
            var p2 := FrameTarget(false, false, true, target, keyTime, t2);
      && p2.x <= p1.x
      && (target == 0 ==> p2.y <= p1.y)
      && (target == 1 ==> p1.y <= p2.y)
  {
    InterpolateMovesTowardsTarget(t1 - keyTime, t2 - keyTime, TargetX[target]);
    InterpolateMovesTowardsTarget(t1 - keyTime, t2 - keyTime, TargetY[target]);
  }

  /** Half way through the window the point is strictly between the centre
      and the target in both coordinates, at the average of the two. */
  lemma FrameTargetMidwayIsStrict(target: nat, keyTime: int)
    requires target < 2
    ensures var p := FrameTarget(false, false, true, target, keyTime, keyTime + Window / 2);
      && 100 < p.x < Centre
      && (target == 0 ==> 100 < p.y < Centre)
      && (target == 1 ==> Centre < p.y < 3996)
    ensures target == 0 ==>
      FrameTarget(false, false, true, target, keyTime, keyTime + Window / 2) == Point(1074, 1074)
    ensures target == 1 ==>
      FrameTarget(false, false, true, target, keyTime, keyTime + Window / 2) == Point(1074, 3022)
  {
    InterpolateMidpointStrict(TargetX[target]);
    InterpolateMidpointStrict(TargetY[target]);
    InterpolateMidpointIsAverage(TargetX[target]);
    InterpolateMidpointIsAverage(TargetY[target]);
  }

  /** The formula is not guarded against a press time later than the
      current time: a thousand units too early, the x coordinate lands on
      the far side of the centre, outside the box. */
  lemma EarlyTickLeavesBox()
    ensures FrameTarget(false, false, true, 1, Window, 0).x == 3996
  {
    NegativeElapsedLeavesRange();
  }

  class DynamicFilter {
    const store: SettingsStore
    const iface: DasherInterface

    var target: nat     // m_iTarget
    var started: bool   // bStarted
    var backOff: bool   // bBackOff
    var keyTime: int    // m_iKeyTime
    var style: int      // m_iStyle
    /** Whether keyTime holds the time of a press rather than the value it
        started with. */
    ghost var keyTimeSet: bool

    /** The target index is always valid, and the interpolation only ever
        runs from the time of a real press. */
    ghost predicate Valid()
      reads this
    {
      && target < 2
      && (style == 0 || style == 1)
      && (started ==> keyTimeSet)
      && iface.store == store
    }

    /** `initialBackOff` and `initialKeyTime` stand for the values the two
        fields hold before anything assigns them. */
    constructor (store: SettingsStore, iface: DasherInterface,
                 initialBackOff: bool, initialKeyTime: int)
      requires iface.store == store
      ensures this.store == store && this.iface == iface
      ensures target == 0 && !started && !keyTimeSet
      ensures backOff == initialBackOff && keyTime == initialKeyTime
      ensures style == if store.buttonPulsing then 1 else 0
      ensures Valid()
    {
      this.store := store;
      this.iface := iface;
      target := 0;
      started := false;
      backOff := initialBackOff;
      keyTime := initialKeyTime;
      keyTimeSet := false;
      if store.buttonPulsing {
        style := 1;
      } else {
        style := 0;
      }
    }

    /** One timer tick: the point handed to the model. */
    method Timer(time: int) returns (p: Point)
      requires Valid()
      ensures p == FrameTarget(backOff, store.buttonSteady, started, target, keyTime, time)
      ensures !backOff && keyTime <= time ==>
        100 <= p.x <= Centre && 100 <= p.y <= 3996
      ensures !backOff && !store.buttonSteady && started && time - keyTime <= Window ==> keyTimeSet
    {
      if backOff {
        p := BackOffPoint;
      } else {
        var x, y;
        if store.buttonSteady || !started || time - keyTime > Window {
          x := TargetX[target];
          y := TargetY[target];
        } else {
          var elapsed := time - keyTime;
          x := TruncDiv(elapsed * TargetX[target] + (Window - elapsed) * Centre, Window);
          y := TruncDiv(elapsed * TargetY[target] + (Window - elapsed) * Centre, Window);
        }
        p := Point(x, y);
      }
    }

    /** Button 1 resumes a paused session, or else flips the target and
        starts the dynamics; either way it records the press time.  Button 2
        starts backing off. */
    method KeyDown(time: int, id: int)
      requires Valid()
      modifies this`target, this`started, this`keyTime, this`keyTimeSet, this`backOff
      modifies iface`calls, store`paused, store`mousePosBox
      ensures Valid()
      ensures id == PrimaryButton && old(store.paused) ==>
        && !store.paused && store.mousePosBox == -1
        && iface.calls == old(iface.calls) + iface.UnpauseCalls(time)
        && keyTime == time && keyTimeSet
        && target == old(target) && started == old(started) && backOff == old(backOff)
      ensures id == PrimaryButton && !old(store.paused) ==>
        && target == 1 - old(target) && started && keyTime == time
        && backOff == old(backOff)
        && unchanged(iface`calls, store`paused, store`mousePosBox)
      ensures id == BackOffButton ==>
        && backOff
        && unchanged(this`target, this`started, this`keyTime, this`keyTimeSet)
        && unchanged(iface`calls, store`paused, store`mousePosBox)
      ensures id != PrimaryButton && id != BackOffButton ==>
        && unchanged(this`target, this`started, this`keyTime, this`keyTimeSet, this`backOff)
        && unchanged(iface`calls, store`paused, store`mousePosBox)
    {
      if id == PrimaryButton {
        if store.paused {
          iface.Unpause(time);
          keyTime := time;
          keyTimeSet := true;
        } else {
          target := 1 - target;
          started := true;
          keyTime := time;
          keyTimeSet := true;
        }
      } else if id == BackOffButton {
        backOff := true;
      }
    }

    /** Releasing button 2 stops backing off; other releases do nothing. */
    method KeyUp(time: int, id: int)
      requires Valid()
      modifies this`backOff
      ensures Valid()
      ensures backOff == if id == BackOffButton then false else old(backOff)
    {
      if id == BackOffButton {
        backOff := false;
      }
    }

    /** A change of either button-style option re-reads the pulsing option;
        every other event is ignored. */
    method HandleEvent(e: Event)
      requires Valid()
      modifies this`style
      ensures Valid()
      ensures e == ParameterChanged(ButtonSteady) || e == ParameterChanged(ButtonPulsing) ==>
        style == if store.buttonPulsing then 1 else 0
      ensures e != ParameterChanged(ButtonSteady) && e != ParameterChanged(ButtonPulsing) ==>
        style == old(style)
    {
      if e.ParameterChanged? {
        match e.parameter {
          case ButtonSteady =>
            StyleFromPulsing();
          case ButtonPulsing =>
            StyleFromPulsing();
          case _ =>
        }
      }
    }

    method StyleFromPulsing()
      requires Valid()
      modifies this`style
      ensures Valid()
      ensures style == if store.buttonPulsing then 1 else 0
    {
      if store.buttonPulsing {
        style := 1;
      } else {
        style := 0;
      }
    }
  }
}
