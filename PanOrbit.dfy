/** Value model of the pan-to-orbit state of the TestingGestures view controller.

    A pan event carries the gesture's translation, the size of the view it is
    measured in, the number of touches and the recognizer's phase. `Step` is
    what one call of the pan handler does to the pan state; `Run` folds a
    sequence of events. Ratios and angles are reals. Both angle formulas of
    the handler are pi times a ratio, so the orbit angles are recorded in
    units of pi radians; `Radians` converts them for any positive pi.
 */
module PanOrbit {

  type PositiveReal = r: real | r > 0.0 witness 1.0

  /** The phases a gesture recognizer reports; only `Ended` matters here. */
  datatype Phase = Possible | Began | Changed | Ended | Cancelled | Failed

  /** Euler angles of the camera-orbit node, `x` (pitch) and `y` (yaw), in
      units of pi radians. */
  datatype Angles = Angles(x: real, y: real)

  /** An angle in units of pi, in radians. */
  function Radians(pi: PositiveReal, halfTurns: real): (r: real)
    ensures r / pi == halfTurns
  {
    pi * halfTurns
  }

  /** One delivery of the pan gesture to its handler. */
  datatype PanEvent = PanEvent(
    translationX: real,
    translationY: real,
    viewWidth: real,
    viewHeight: real,
    numberOfTouches: int,
    phase: Phase)

  /** The controller's pan fields, in declaration order, plus the orbit angles. */
  datatype PanState = PanState(
    lastWidthRatio: real,
    lastHeightRatio: real,
    widthRatio: real,
    heightRatio: real,
    fingersNeededToPan: int,
    maxWidthRatioRight: real,
    maxWidthRatioLeft: real,
    maxHeightRatioXDown: real,
    maxHeightRatioXUp: real,
    lastFingersNumber: int,
    orbit: Angles)

  /** The view an event is measured in has a size to divide by. */
  predicate ValidEvent(e: PanEvent) {
    e.viewWidth > 0.0 && e.viewHeight > 0.0
  }

  /** The handler divides by the view's size only when the touch count is the
      required one, so only such an event needs a sized view. */
  predicate Deliverable(fingersNeededToPan: int, e: PanEvent) {
    e.numberOfTouches == fingersNeededToPan ==> ValidEvent(e)
  }

  predicate AllDeliverable(fingersNeededToPan: int, events: seq<PanEvent>) {
    forall i :: 0 <= i < |events| ==> Deliverable(fingersNeededToPan, events[i])
  }

  /** The policy fields: the handler reads them and never writes them. */
  predicate SameConfig(s: PanState, t: PanState) {
    s.fingersNeededToPan == t.fingersNeededToPan &&
    s.maxWidthRatioRight == t.maxWidthRatioRight &&
    s.maxWidthRatioLeft == t.maxWidthRatioLeft &&
    s.maxHeightRatioXDown == t.maxHeightRatioXDown &&
    s.maxHeightRatioXUp == t.maxHeightRatioXUp
  }

  /** The same committed ratios. */
  predicate SameCommitted(s: PanState, t: PanState) {
    s.lastWidthRatio == t.lastWidthRatio && s.lastHeightRatio == t.lastHeightRatio
  }

  /** The same live ratios and the same orbit angles. */
  predicate SameView(s: PanState, t: PanState) {
    s.widthRatio == t.widthRatio && s.heightRatio == t.heightRatio && s.orbit == t.orbit
  }

  /** The state the field initialisers give; the orbit node starts unrotated. */
  function Initial(): (r: PanState)
    ensures Coherent(r)
    ensures InitialAngles(r) == r.orbit
  {
    PanState(0.0, 0.0, 0.0, 0.0, 1, 1.0, -1.0, -0.3, 0.3, 0, Angles(0.0, 0.0))
  }

  /** The two sequential `if`s of each constraint: first the upper bound
      saturates, then the lower bound, so with inverted bounds the lower wins. */
  function Clamp(v: real, lo: real, hi: real): (r: real)
    ensures lo <= hi ==> lo <= r <= hi
    ensures lo <= v <= hi ==> r == v
    ensures lo <= hi && hi <= v ==> r == hi
    ensures v <= lo ==> r == lo
    ensures hi < lo ==> r == lo
  {
    var capped := if v >= hi then hi else v;
    if capped <= lo then lo else capped
  }

  /** Yaw is a full turn (-2 pi) per view width, pitch half a turn (-pi) per
      view height; the ratios can be read back from the angles. */
  function OrbitAngles(widthRatio: real, heightRatio: real): (a: Angles)
    ensures a.y / -2.0 == widthRatio
    ensures -a.x == heightRatio
  {
    Angles(-heightRatio, -2.0 * widthRatio)
  }

  /** The orbit angles set up when the camera is created: they come from the
      committed ratios, not the live ones. */
  function InitialAngles(s: PanState): (a: Angles)
    ensures a.y / -2.0 == s.lastWidthRatio
    ensures -a.x == s.lastHeightRatio
  {
    OrbitAngles(s.lastWidthRatio, s.lastHeightRatio)
  }

  /** A pan with the required finger count: the raw ratios, clamped, set the
      live ratios and the orbit, and the finger count is recorded. */
  function Track(s: PanState, e: PanEvent): (r: PanState)
    requires ValidEvent(e)
    ensures SameConfig(r, s) && SameCommitted(r, s)
    ensures r.orbit == OrbitAngles(r.widthRatio, r.heightRatio)
    ensures r.lastFingersNumber == s.fingersNeededToPan
    ensures s.maxHeightRatioXDown <= s.maxHeightRatioXUp ==>
              s.maxHeightRatioXDown <= r.heightRatio <= s.maxHeightRatioXUp
    ensures s.maxWidthRatioLeft <= s.maxWidthRatioRight ==>
              s.maxWidthRatioLeft <= r.widthRatio <= s.maxWidthRatioRight
    ensures r.heightRatio == Clamp(e.translationY / e.viewHeight, s.maxHeightRatioXDown, s.maxHeightRatioXUp)
    ensures r.widthRatio == Clamp(e.translationX / e.viewWidth, s.maxWidthRatioLeft, s.maxWidthRatioRight)
  {
    var h := Clamp(e.translationY / e.viewHeight, s.maxHeightRatioXDown, s.maxHeightRatioXUp);
    var w := Clamp(e.translationX / e.viewWidth, s.maxWidthRatioLeft, s.maxWidthRatioRight);
    s.(widthRatio := w, heightRatio := h, orbit := OrbitAngles(w, h),
       lastFingersNumber := s.fingersNeededToPan)
  }

  /** The last non-zero finger count. */
  function CountFingers(s: PanState, numberOfTouches: int): (r: PanState)
    ensures SameConfig(r, s) && SameCommitted(r, s) && SameView(r, s)
    ensures numberOfTouches > 0 ==> r.lastFingersNumber == numberOfTouches
    ensures numberOfTouches <= 0 ==> r == s
  {
    s.(lastFingersNumber := if numberOfTouches > 0 then numberOfTouches else s.lastFingersNumber)
  }

  /** At the end of a gesture made with the required finger count, the live
      ratios become the committed ones. */
  function Commit(s: PanState, phase: Phase): (r: PanState)
    ensures SameConfig(r, s) && r.lastFingersNumber == s.lastFingersNumber
    ensures phase == Ended && s.lastFingersNumber == s.fingersNeededToPan ==>
              r.lastWidthRatio == s.widthRatio && r.lastHeightRatio == s.heightRatio
    ensures !(phase == Ended && s.lastFingersNumber == s.fingersNeededToPan) ==> SameCommitted(r, s)
  {
    if phase == Ended && s.lastFingersNumber == s.fingersNeededToPan then
      s.(lastWidthRatio := s.widthRatio, lastHeightRatio := s.heightRatio)
    else s
  }

  /** The commit touches only the committed ratios: the live ratios and the
      orbit shown stay as they were. */
  lemma CommitKeepsView(s: PanState, phase: Phase)
    ensures SameView(Commit(s, phase), s)
  {
  }

  /** One call of the pan handler. */
  function Step(s: PanState, e: PanEvent): (r: PanState)
    requires Deliverable(s.fingersNeededToPan, e)
    ensures SameConfig(r, s)
    ensures e.numberOfTouches != s.fingersNeededToPan ==>
              r.widthRatio == s.widthRatio && r.heightRatio == s.heightRatio && r.orbit == s.orbit
    ensures if e.phase == Ended && r.lastFingersNumber == s.fingersNeededToPan
            then r.lastWidthRatio == r.widthRatio && r.lastHeightRatio == r.heightRatio
            else r.lastWidthRatio == s.lastWidthRatio && r.lastHeightRatio == s.lastHeightRatio
  {
    var tracked := if e.numberOfTouches == s.fingersNeededToPan then Track(s, e) else s;
    Commit(CountFingers(tracked, e.numberOfTouches), e.phase)
  }

  /** The handler applied to each event in turn. */
  function Run(s: PanState, events: seq<PanEvent>): (r: PanState)
    requires AllDeliverable(s.fingersNeededToPan, events)
    ensures SameConfig(r, s)
    decreases |events|
  {
    if events == [] then s
    else
      assert Deliverable(s.fingersNeededToPan, events[0]);
      Run(Step(s, events[0]), events[1..])
  }

  /** Live and committed ratios inside their bounds, and the orbit angles
      those of the live ratios. */
  predicate Coherent(s: PanState) {
    s.maxHeightRatioXDown <= s.heightRatio <= s.maxHeightRatioXUp &&
    s.maxWidthRatioLeft <= s.widthRatio <= s.maxWidthRatioRight &&
    s.maxHeightRatioXDown <= s.lastHeightRatio <= s.maxHeightRatioXUp &&
    s.maxWidthRatioLeft <= s.lastWidthRatio <= s.maxWidthRatioRight &&
    s.orbit == OrbitAngles(s.widthRatio, s.heightRatio)
  }

  // ---------------------------------------------------------------------
  // Properties of one pan event

  /** A matching pan leaves the height ratio inside its bounds: a raw ratio
      already inside them is taken unchanged, one at or past a bound
      saturates at that bound. */
  lemma StepClampsHeight(s: PanState, e: PanEvent)
    requires ValidEvent(e) && e.numberOfTouches == s.fingersNeededToPan
    requires s.maxHeightRatioXDown <= s.maxHeightRatioXUp
    ensures s.maxHeightRatioXDown <= Step(s, e).heightRatio <= s.maxHeightRatioXUp
    ensures s.maxHeightRatioXDown <= e.translationY / e.viewHeight <= s.maxHeightRatioXUp ==>
              Step(s, e).heightRatio == e.translationY / e.viewHeight
    ensures e.translationY / e.viewHeight >= s.maxHeightRatioXUp ==>
              Step(s, e).heightRatio == s.maxHeightRatioXUp
    ensures e.translationY / e.viewHeight <= s.maxHeightRatioXDown ==>
              Step(s, e).heightRatio == s.maxHeightRatioXDown
  {
  }

  /** The same for the width ratio. */
  lemma StepClampsWidth(s: PanState, e: PanEvent)
    requires ValidEvent(e) && e.numberOfTouches == s.fingersNeededToPan
    requires s.maxWidthRatioLeft <= s.maxWidthRatioRight
    ensures s.maxWidthRatioLeft <= Step(s, e).widthRatio <= s.maxWidthRatioRight
    ensures s.maxWidthRatioLeft <= e.translationX / e.viewWidth <= s.maxWidthRatioRight ==>
              Step(s, e).widthRatio == e.translationX / e.viewWidth
    ensures e.translationX / e.viewWidth >= s.maxWidthRatioRight ==>
              Step(s, e).widthRatio == s.maxWidthRatioRight
    ensures e.translationX / e.viewWidth <= s.maxWidthRatioLeft ==>
              Step(s, e).widthRatio == s.maxWidthRatioLeft
  {
  }

  /** After a matching pan the orbit angles are those of the clamped ratios:
      -2 pi times the width ratio, -pi times the height ratio. */
  lemma StepSetsOrbit(pi: PositiveReal, s: PanState, e: PanEvent)
    requires ValidEvent(e) && e.numberOfTouches == s.fingersNeededToPan
    ensures Radians(pi, Step(s, e).orbit.y) == -2.0 * pi * Step(s, e).widthRatio
    ensures Radians(pi, Step(s, e).orbit.x) == -1.0 * pi * Step(s, e).heightRatio
  {
  }

  /** With ordered bounds, a matching pan keeps the angles between the angles
      of the bounds: yaw in [-2 right, -2 left], pitch in [-up, -down]. */
  lemma StepOrbitBounded(s: PanState, e: PanEvent)
    requires ValidEvent(e) && e.numberOfTouches == s.fingersNeededToPan
    requires s.maxWidthRatioLeft <= s.maxWidthRatioRight
    requires s.maxHeightRatioXDown <= s.maxHeightRatioXUp
    ensures -2.0 * s.maxWidthRatioRight <= Step(s, e).orbit.y <= -2.0 * s.maxWidthRatioLeft
    ensures -s.maxHeightRatioXUp <= Step(s, e).orbit.x <= -s.maxHeightRatioXDown
  {
  }

  /** The ratios come from the raw translation alone: whatever the live and
      committed ratios, orbit and finger count before, two states with the same
      policy give the same live ratios, orbit and finger count after a matching pan. */
  lemma StepIgnoresPriorState(s1: PanState, s2: PanState, e: PanEvent)
    requires ValidEvent(e) && SameConfig(s1, s2)
    requires e.numberOfTouches == s1.fingersNeededToPan
    ensures Step(s1, e).widthRatio == Step(s2, e).widthRatio
    ensures Step(s1, e).heightRatio == Step(s2, e).heightRatio
    ensures Step(s1, e).orbit == Step(s2, e).orbit
    ensures Step(s1, e).lastFingersNumber == Step(s2, e).lastFingersNumber
  {
  }

  /** Delivering the same event twice is the same as delivering it once. */
  lemma StepIdempotent(s: PanState, e: PanEvent)
    requires Deliverable(s.fingersNeededToPan, e)
    ensures Step(Step(s, e), e) == Step(s, e)
  {
  }

  /** The finger count is the event's when positive. Otherwise it keeps its
      previous value, except that a matching pan records `fingersNeededToPan`
      (which can only be non-positive there if the policy is). */
  lemma StepTracksFingers(s: PanState, e: PanEvent)
    requires Deliverable(s.fingersNeededToPan, e)
    ensures e.numberOfTouches > 0 ==> Step(s, e).lastFingersNumber == e.numberOfTouches
    ensures e.numberOfTouches <= 0 && e.numberOfTouches != s.fingersNeededToPan ==>
              Step(s, e).lastFingersNumber == s.lastFingersNumber
    ensures e.numberOfTouches <= 0 && e.numberOfTouches == s.fingersNeededToPan ==>
              Step(s, e).lastFingersNumber == s.fingersNeededToPan
    ensures s.fingersNeededToPan > 0 ==>
              Step(s, e).lastFingersNumber ==
                (if e.numberOfTouches > 0 then e.numberOfTouches else s.lastFingersNumber)
  {
  }

  /** UIKit reports no touches once the fingers have lifted: an `Ended` event
      with zero touches commits the live ratios when the gesture was made with
      the required finger count, and leaves the orientation alone. */
  lemma LiftedEndCommits(s: PanState, e: PanEvent)
    requires e.phase == Ended && e.numberOfTouches == 0
    requires s.fingersNeededToPan > 0 && s.lastFingersNumber == s.fingersNeededToPan
    ensures Step(s, e) == s.(lastWidthRatio := s.widthRatio, lastHeightRatio := s.heightRatio)
  {
  }

  /** A commit makes the camera set-up angles equal the orientation shown. */
  lemma CommitRestoresOrbit(s: PanState, e: PanEvent)
    requires Deliverable(s.fingersNeededToPan, e) && Coherent(s)
    requires e.phase == Ended && Step(s, e).lastFingersNumber == s.fingersNeededToPan
    ensures InitialAngles(Step(s, e)) == Step(s, e).orbit
  {
    StepKeepsCoherent(s, e);
  }

  /** Worked case with the default policy: a pan across a quarter of the view
      width turns the orbit by -pi/2 and leaves the pitch at 0. */
  lemma QuarterWidthPan(pi: PositiveReal, s: PanState, w: real, h: real)
    requires w > 0.0 && h > 0.0 && SameConfig(s, Initial())
    ensures Step(s, PanEvent(0.25 * w, 0.0, w, h, 1, Changed)).widthRatio == 0.25
    ensures Radians(pi, Step(s, PanEvent(0.25 * w, 0.0, w, h, 1, Changed)).orbit.y) == -1.0 * pi / 2.0
    ensures Step(s, PanEvent(0.25 * w, 0.0, w, h, 1, Changed)).orbit.x == 0.0
  {
    assert (0.25 * w) / w == 0.25;
    assert 0.0 / h == 0.0;
  }

  /** Worked case with the default policy: a pan of five view widths saturates
      at the right bound, a full turn, not five. */
  lemma SaturatedWidthPan(pi: PositiveReal, s: PanState, w: real, h: real)
    requires w > 0.0 && h > 0.0 && SameConfig(s, Initial())
    ensures Step(s, PanEvent(5.0 * w, 0.0, w, h, 1, Changed)).widthRatio == 1.0
    ensures Radians(pi, Step(s, PanEvent(5.0 * w, 0.0, w, h, 1, Changed)).orbit.y) == -2.0 * pi
  {
    assert (5.0 * w) / w == 5.0;
  }

  /** Worked case from the initial state: a one-finger drag across a quarter
      of a 1000-point view turns the orbit by -pi/2 and records one finger;
      the zero-touch `Ended` event of the lift-off then commits the ratios. */
  lemma QuarterTurnAndLift()
    ensures Step(Initial(), PanEvent(250.0, 0.0, 1000.0, 800.0, 1, Changed)) ==
              Initial().(widthRatio := 0.25, heightRatio := 0.0,
                         orbit := Angles(0.0, -0.5), lastFingersNumber := 1)
    ensures Step(Initial().(widthRatio := 0.25, heightRatio := 0.0,
                            orbit := Angles(0.0, -0.5), lastFingersNumber := 1),
                 PanEvent(250.0, 0.0, 1000.0, 800.0, 0, Ended)) ==
              Initial().(widthRatio := 0.25, heightRatio := 0.0,
                         orbit := Angles(0.0, -0.5), lastFingersNumber := 1,
                         lastWidthRatio := 0.25, lastHeightRatio := 0.0)
  {
    assert 250.0 / 1000.0 == 0.25 && 0.0 / 800.0 == 0.0;
    LiftedEndCommits(Initial().(widthRatio := 0.25, heightRatio := 0.0,
                                orbit := Angles(0.0, -0.5), lastFingersNumber := 1),
                     PanEvent(250.0, 0.0, 1000.0, 800.0, 0, Ended));
  }

  // ---------------------------------------------------------------------
  // Invariants over the life of the controller

  /** Initially every ratio is 0, one finger pans, none has been seen, and
      the camera is set up unrotated. */
  lemma InitialState()
    ensures Coherent(Initial())
    ensures Initial().fingersNeededToPan == 1 && Initial().lastFingersNumber == 0
    ensures InitialAngles(Initial()) == Angles(0.0, 0.0)
  {
  }

  /** Every pan event keeps the state coherent. */
  lemma StepKeepsCoherent(s: PanState, e: PanEvent)
    requires Deliverable(s.fingersNeededToPan, e) && Coherent(s)
    ensures Coherent(Step(s, e))
  {
  }

  /** Any sequence of pan events keeps the state coherent: the live and the
      committed ratios never leave their bounds. */
  lemma {:induction false} RunKeepsCoherent(s: PanState, events: seq<PanEvent>)
    requires AllDeliverable(s.fingersNeededToPan, events) && Coherent(s)
    ensures Coherent(Run(s, events))
    decreases |events|
  {
    if events != [] {
      assert Deliverable(s.fingersNeededToPan, events[0]);
      StepKeepsCoherent(s, events[0]);
      RunKeepsCoherent(Step(s, events[0]), events[1..]);
    }
  }

  /** From the initial state, after any sequence of pan events whose
      matching ones are measured in a sized view, the
      live and committed ratios lie in the default bounds. */
  lemma RunFromInitial(events: seq<PanEvent>)
    requires AllDeliverable(Initial().fingersNeededToPan, events)
    ensures Coherent(Run(Initial(), events))
    ensures SameConfig(Run(Initial(), events), Initial())
  {
    InitialState();
    RunKeepsCoherent(Initial(), events);
  }

  /** Events without the required finger count never move the orbit. */
  lemma {:induction false} RunWithoutMatchKeepsOrbit(s: PanState, events: seq<PanEvent>)
    requires forall i :: 0 <= i < |events| ==> events[i].numberOfTouches != s.fingersNeededToPan
    ensures Run(s, events).widthRatio == s.widthRatio
    ensures Run(s, events).heightRatio == s.heightRatio
    ensures Run(s, events).orbit == s.orbit
    decreases |events|
  {
    if events != [] {
      var t := Step(s, events[0]);
      assert forall i :: 0 <= i < |events[1..]| ==> events[1..][i] == events[i + 1];
      RunWithoutMatchKeepsOrbit(t, events[1..]);
    }
  }
}
