/** The finger-state classifier and the gesture mapper of
    hand_gesture/gestures.py: pure functions from one hand's landmarks to a
    5-tuple of open (1) / closed (0) fingers, and from that tuple to an
    action. */
module Gestures {
  import opened Prelude

  /** The actions a stable gesture can trigger. */
  datatype GestureAction = CloseCurrentApp | OpenTaskView | SelectTaskWindow | CloseAllApps

  /** (thumb, index, middle, ring, pinky); 1 means open. */
  type FingerState = (int, int, int, int, int)

  /** One tracked key point in normalised image coordinates (y grows downwards);
      the depth coordinate is never read and is not modelled. */
  datatype Landmark = Landmark(x: real, y: real)

  /** What one frame tells the controller about the first detected hand. */
  datatype HandInfo = HandInfo(fingerState: FingerState, fingerCount: int, indexTip: (real, real))

  /** Landmark indices of the hand model: thumb tip and its joint, and the
      tips of the four other fingers (each finger's second joint is two
      indices below its tip). */
  const THUMB_TIP := 4
  const THUMB_JOINT := 3
  const INDEX_TIP := 8
  const MIDDLE_TIP := 12
  const RING_TIP := 16
  const PINKY_TIP := 20
  const LANDMARK_COUNT := 21

  const ALL_OPEN: FingerState := (1, 1, 1, 1, 1)
  const INDEX_ONLY: FingerState := (0, 1, 0, 0, 0)
  const ALL_CLOSED: FingerState := (0, 0, 0, 0, 0)
  const INDEX_AND_MIDDLE: FingerState := (0, 1, 1, 0, 0)

  predicate IsBit(b: int) { b == 0 || b == 1 }

  predicate IsBits(s: FingerState) {
    IsBit(s.0) && IsBit(s.1) && IsBit(s.2) && IsBit(s.3) && IsBit(s.4)
  }

  function Sum(s: FingerState): int { s.0 + s.1 + s.2 + s.3 + s.4 }

  /** Thumb openness depends on handedness: a right hand (or one whose label
      is unknown) has its thumb open when the tip is left of the joint, a
      left hand when it is right of it. */
  function ThumbOpen(lm: seq<Landmark>, handLabel: Option<string>): (b: int)
    requires |lm| > THUMB_TIP
    ensures IsBit(b)
    ensures b == 1 <==>
      if handLabel == Some("Left") then lm[THUMB_TIP].x > lm[THUMB_JOINT].x
      else lm[THUMB_TIP].x < lm[THUMB_JOINT].x
  {
    if handLabel == Some("Right") then
      (if lm[THUMB_TIP].x < lm[THUMB_JOINT].x then 1 else 0)
    else if handLabel == Some("Left") then
      (if lm[THUMB_TIP].x > lm[THUMB_JOINT].x then 1 else 0)
    else
      (if lm[THUMB_TIP].x < lm[THUMB_JOINT].x then 1 else 0)
  }

  /** A non-thumb finger is open when its tip is above its second joint. */
  function FingerOpen(lm: seq<Landmark>, tip: int): (b: int)
    requires 2 <= tip < |lm|
    ensures IsBit(b)
    ensures b == 1 <==> lm[tip].y < lm[tip - 2].y
  {
    if lm[tip].y < lm[tip - 2].y then 1 else 0
  }

  /** Mirroring the handedness label mirrors the thumb: with distinct
      x-coordinates "Right" and "Left" disagree, with equal ones both say
      closed; any label other than "Left" follows the right-hand rule. */
  lemma HandednessFlipsThumb(lm: seq<Landmark>, other: Option<string>)
    requires |lm| > THUMB_TIP
    requires other != Some("Left")
    ensures lm[THUMB_TIP].x != lm[THUMB_JOINT].x ==>
      ThumbOpen(lm, Some("Right")) == 1 - ThumbOpen(lm, Some("Left"))
    ensures lm[THUMB_TIP].x == lm[THUMB_JOINT].x ==>
      ThumbOpen(lm, Some("Right")) == 0 && ThumbOpen(lm, Some("Left")) == 0
    ensures ThumbOpen(lm, other) == ThumbOpen(lm, Some("Right"))
  {
  }

  /** Classifies one hand: each finger open or closed, how many are open,
      and where the index fingertip is. */
  function ExtractHandInfo(lm: seq<Landmark>, handLabel: Option<string>): (h: HandInfo)
    requires |lm| >= LANDMARK_COUNT
    ensures IsBits(h.fingerState)
    ensures h.fingerCount == Sum(h.fingerState) && 0 <= h.fingerCount <= 5
    ensures h.fingerState.0 == ThumbOpen(lm, handLabel)
    ensures h.fingerState.1 == 1 <==> lm[INDEX_TIP].y < lm[INDEX_TIP - 2].y
    ensures h.fingerState.2 == 1 <==> lm[MIDDLE_TIP].y < lm[MIDDLE_TIP - 2].y
    ensures h.fingerState.3 == 1 <==> lm[RING_TIP].y < lm[RING_TIP - 2].y
    ensures h.fingerState.4 == 1 <==> lm[PINKY_TIP].y < lm[PINKY_TIP - 2].y
    ensures h.indexTip == (lm[INDEX_TIP].x, lm[INDEX_TIP].y)
  {
    var state := (ThumbOpen(lm, handLabel), FingerOpen(lm, INDEX_TIP), FingerOpen(lm, MIDDLE_TIP),
                  FingerOpen(lm, RING_TIP), FingerOpen(lm, PINKY_TIP));
    HandInfo(state, Sum(state), (lm[INDEX_TIP].x, lm[INDEX_TIP].y))
  }

  /** What the vision engine hands over per frame: the first detected hand,
      classified with its handedness label when the tracker supplied one. */
  function FirstHand(hands: seq<seq<Landmark>>, labels: seq<string>): (h: Option<HandInfo>)
    requires forall i :: 0 <= i < |hands| ==> |hands[i]| >= LANDMARK_COUNT
    ensures h.None? <==> hands == []
    ensures h.Some? ==>
      && IsBits(h.value.fingerState) && h.value.fingerCount == Sum(h.value.fingerState)
      && h.value.indexTip == (hands[0][INDEX_TIP].x, hands[0][INDEX_TIP].y)
      && h.value.fingerState.1 == FingerOpen(hands[0], INDEX_TIP)
      && h.value.fingerState.2 == FingerOpen(hands[0], MIDDLE_TIP)
      && h.value.fingerState.3 == FingerOpen(hands[0], RING_TIP)
      && h.value.fingerState.4 == FingerOpen(hands[0], PINKY_TIP)
      && (labels == [] ==> h.value.fingerState.0 == ThumbOpen(hands[0], Some("Right")))
      && (labels != [] ==> h.value.fingerState.0 == ThumbOpen(hands[0], Some(labels[0])))
  {
    if hands == [] then None
    else Some(ExtractHandInfo(hands[0], if |labels| > 0 then Some(labels[0]) else None))
  }

  /** The finger pose that triggers each action. */
  function Pose(a: GestureAction): FingerState {
    match a
    case CloseCurrentApp => ALL_OPEN
    case OpenTaskView => INDEX_ONLY
    case SelectTaskWindow => ALL_CLOSED
    case CloseAllApps => INDEX_AND_MIDDLE
  }

  /** Exact-match lookup of a finger state: an action is returned only for
      its own pose, and nothing for a state that is no action's pose. */
  function MapAction(s: FingerState): (r: Option<GestureAction>)
    ensures r.Some? ==> s == Pose(r.value)
    ensures r.None? <==> forall a :: Pose(a) != s
  {
    if s == ALL_OPEN then Some(CloseCurrentApp)
    else if s == INDEX_ONLY then Some(OpenTaskView)
    else if s == ALL_CLOSED then Some(SelectTaskWindow)
    else if s == INDEX_AND_MIDDLE then Some(CloseAllApps)
    else None
  }

  /** Every action is recognised from its pose, so distinct recognised states
      give distinct actions. */
  lemma MapActionInvertsPose(a: GestureAction, s: FingerState, t: FingerState)
    ensures MapAction(Pose(a)) == Some(a)
    ensures MapAction(s).Some? && MapAction(s) == MapAction(t) ==> s == t
  {
  }

  /** The text shown for the current per-frame action. */
  function ActionLabel(a: Option<GestureAction>): (s: string)
    ensures s == "None" <==> a.None?
  {
    match a
    case Some(CloseCurrentApp) => "Close Current App (Open Palm)"
    case Some(OpenTaskView) => "Open Task View (Index Finger)"
    case Some(SelectTaskWindow) => "Select Window (Fist)"
    case Some(CloseAllApps) => "Close All Apps (V Sign)"
    case None => "None"
  }

  /** Distinct actions are labelled differently. */
  lemma ActionLabelInjective(a: Option<GestureAction>, b: Option<GestureAction>)
    ensures ActionLabel(a) == ActionLabel(b) ==> a == b
  {
  }
}
