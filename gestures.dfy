/**
 * The gesture classifier of client/src/lib/GestureRecognizer.ts: hand
 * openness, pinch strength and angle, the distance between two hands, and the
 * persistent `gestureData` record that each frame updates branch by branch.
 *
 * Math.sqrt and Math.atan2 are not available here.  The distance between two
 * landmarks and the angle of the thumb-to-index vector are passed in as
 * functions `dist` and `angle`; `Euclidean(dist)` and `AngleRange(angle)` say
 * what those primitives promise.
 */
module Gestures {
  import opened Numeric

  /** A landmark in normalised image coordinates. */
  datatype Point = Point(x: real, y: real)

  /** One hand's landmark list as the detector delivers it (21 points when well formed). */
  type Hand = seq<Point>

  /** A numeric primitive on two landmarks: a distance or an angle. */
  type Metric = (Point, Point) -> real

  const LandmarkCount: nat := 21
  const PalmBase: nat := 0
  const ThumbTip: nat := 4
  const IndexTip: nat := 8
  const PalmMiddle: nat := 9
  const FingerTips: seq<nat> := [4, 8, 12, 16, 20]
  /** A tip is extended when it is farther from the palm base than 1.5 palm lengths. */
  const OpenRatio: real := 1.5
  const MinOpenFingers: nat := 3
  const FixedConfidence: real := 0.8

  function DistSq(a: Point, b: Point): real
  {
    (a.x - b.x) * (a.x - b.x) + (a.y - b.y) * (a.y - b.y)
  }

  /** `dist` is Math.sqrt of the squared Euclidean distance. */
  ghost predicate Euclidean(dist: Metric)
  {
    forall a, b :: dist(a, b) >= 0.0 && dist(a, b) * dist(a, b) == DistSq(a, b)
  }

  /** `angle` is Math.atan2 converted to degrees. */
  ghost predicate AngleRange(angle: Metric)
  {
    forall a, b :: -180.0 <= angle(a, b) <= 180.0
  }

  // ---------------------------------------------------------------------------
  // Square roots, without square roots

  lemma SquareLess(a: real, b: real)
    requires 0.0 <= a && 0.0 <= b
    ensures a < b <==> a * a < b * b
  {
    if a < b {
      calc {
        a * a;
      <= { assert a * (b - a) >= 0.0; }
        a * b;
      < { assert (b - a) * b > 0.0; }
        b * b;
      }
    } else {
      assert b * b <= b * a;
      assert b * a == a * b;
      assert a * b <= a * a;
      assert !(a * a < b * b);
    }
  }

  lemma SquareZero(x: real)
    ensures 0.0 <= x * x
    ensures x * x == 0.0 ==> x == 0.0
  {
    if x < 0.0 {
      SquareLess(0.0, -x);
      assert (-x) * (-x) == x * x;
    } else {
      SquareLess(0.0, x);
    }
  }

  /** Non-negative square roots are unique. */
  lemma SquareRootUnique(a: real, b: real)
    requires 0.0 <= a && 0.0 <= b && a * a == b * b
    ensures a == b
  {
    SquareLess(a, b);
    SquareLess(b, a);
  }

  /** A Euclidean distance function is symmetric and zero exactly on equal points. */
  lemma EuclideanFacts(dist: Metric, a: Point, b: Point)
    requires Euclidean(dist)
    ensures dist(a, b) == dist(b, a)
    ensures dist(a, b) == 0.0 <==> a == b
  {
    assert DistSq(a, b) == DistSq(b, a);
    SquareRootUnique(dist(a, b), dist(b, a));
    SquareZero(a.x - b.x);
    SquareZero(a.y - b.y);
    SquareZero(dist(a, b));
    if dist(a, b) == 0.0 {
      assert DistSq(a, b) == 0.0;
      assert a.x - b.x == 0.0 && a.y - b.y == 0.0;
    }
  }

  // ---------------------------------------------------------------------------
  // Hand openness

  /** Fingertip `tip` lies strictly farther from the palm base than 1.5 palm lengths. */
  predicate TipExtended(hand: Hand, tip: nat, dist: Metric)
    requires tip < |hand| && PalmMiddle < |hand|
    ensures Euclidean(dist) && TipExtended(hand, tip, dist) ==> dist(hand[tip], hand[PalmBase]) > 0.0
  {
    dist(hand[tip], hand[PalmBase]) > dist(hand[PalmMiddle], hand[PalmBase]) * OpenRatio
  }

  /** The same test on squared distances: 1.5 palm lengths is 2.25 squared palm lengths. */
  lemma TipExtendedBySquares(hand: Hand, tip: nat, dist: Metric)
    requires Euclidean(dist) && tip < |hand| && PalmMiddle < |hand|
    ensures TipExtended(hand, tip, dist) <==>
      DistSq(hand[tip], hand[PalmBase]) > 2.25 * DistSq(hand[PalmMiddle], hand[PalmBase])
  {
    var d := dist(hand[tip], hand[PalmBase]);
    var p := dist(hand[PalmMiddle], hand[PalmBase]);
    SquareLess(p * OpenRatio, d);
    assert (p * OpenRatio) * (p * OpenRatio) == 2.25 * (p * p);
  }

  /** How many of `tips` are extended, counted front to back as the loop does. */
  function OpenCount(hand: Hand, tips: seq<nat>, dist: Metric): (r: nat)
    requires LandmarkCount <= |hand|
    requires forall k :: 0 <= k < |tips| ==> tips[k] < LandmarkCount
    ensures r <= |tips|
  {
    if tips == [] then 0
    else
      var last := tips[|tips| - 1];
      OpenCount(hand, tips[..|tips| - 1], dist) + (if TipExtended(hand, last, dist) then 1 else 0)
  }

  /** The set of the five fingertips that are extended. */
  function ExtendedTips(hand: Hand, tips: seq<nat>, dist: Metric): set<nat>
    requires LandmarkCount <= |hand|
    requires forall k :: 0 <= k < |tips| ==> tips[k] < LandmarkCount
  {
    set t | t in tips && TipExtended(hand, t, dist)
  }

  /** Appending one tip adds it to the set of extended tips exactly when it is extended. */
  lemma ExtendedTipsSnoc(hand: Hand, init: seq<nat>, last: nat, dist: Metric)
    requires LandmarkCount <= |hand| && last < LandmarkCount
    requires forall k :: 0 <= k < |init| ==> init[k] < LandmarkCount
    ensures ExtendedTips(hand, init + [last], dist) ==
      ExtendedTips(hand, init, dist) + (if TipExtended(hand, last, dist) then {last} else {})
  {
    var tips := init + [last];
    assert forall t :: t in tips <==> t in init || t == last;
  }

  /** Counting extended tips one by one gives the size of the set of extended tips. */
  lemma {:induction false} OpenCountIsCardinality(hand: Hand, tips: seq<nat>, dist: Metric)
    requires LandmarkCount <= |hand|
    requires forall k :: 0 <= k < |tips| ==> tips[k] < LandmarkCount
    requires forall k, m :: 0 <= k < m < |tips| ==> tips[k] != tips[m]
    ensures OpenCount(hand, tips, dist) == |ExtendedTips(hand, tips, dist)|
  {
    if tips != [] {
      var init, last := tips[..|tips| - 1], tips[|tips| - 1];
      assert tips == init + [last];
      OpenCountIsCardinality(hand, init, dist);
      ExtendedTipsSnoc(hand, init, last, dist);
      assert last !in ExtendedTips(hand, init, dist) by {
        assert last !in init;
      }
    }
  }

  /** `isHandOpen`: at least 21 landmarks and at least three of the five tips extended. */
  predicate HandOpen(hand: Hand, dist: Metric)
    ensures HandOpen(hand, dist) ==> LandmarkCount <= |hand|
  {
    LandmarkCount <= |hand| && OpenCount(hand, FingerTips, dist) >= MinOpenFingers
  }

  /**
   * The hand is open iff it has 21 landmarks and at least three of the tips
   * 4, 8, 12, 16, 20 are extended; at most five can be.
   */
  lemma HandOpenIffThreeTips(hand: Hand, dist: Metric)
    ensures |hand| < LandmarkCount ==> !HandOpen(hand, dist)
    ensures LandmarkCount <= |hand| ==>
      |ExtendedTips(hand, FingerTips, dist)| <= 5 &&
      (HandOpen(hand, dist) <==> |ExtendedTips(hand, FingerTips, dist)| >= 3)
  {
    if LandmarkCount <= |hand| {
      OpenCountIsCardinality(hand, FingerTips, dist);
    }
  }

  /** The loop of `isHandOpen`, counting extended fingertips in `openFingers`. */
  method IsHandOpen(hand: Hand, dist: Metric) returns (open: bool)
    ensures open == HandOpen(hand, dist)
  {
    if |hand| < LandmarkCount {
      return false;
    }
    var palmBase := hand[PalmBase];
    var palmMiddle := hand[PalmMiddle];
    var openFingers: nat := 0;
    var palmDistance := dist(palmMiddle, palmBase);
    for k := 0 to |FingerTips|
      invariant openFingers == OpenCount(hand, FingerTips[..k], dist)
      invariant openFingers <= k
    {
      var tip := hand[FingerTips[k]];
      var distance := dist(tip, palmBase);
      if distance > palmDistance * OpenRatio {
        openFingers := openFingers + 1;
      }
      assert FingerTips[..k + 1][..k] == FingerTips[..k];
    }
    assert FingerTips[..|FingerTips|] == FingerTips;
    return openFingers >= MinOpenFingers;
  }

  // ---------------------------------------------------------------------------
  // Pinch and hand distance

  /** `calculatePinchStrength`: 1 - 2 * (thumb-to-index distance), clamped to [0, 1]. */
  function PinchStrength(hand: Hand, dist: Metric): (r: real)
    ensures 0.0 <= r <= 1.0
    ensures |hand| <= IndexTip ==> r == 0.0
  {
    if |hand| <= IndexTip then 0.0
    else Clamp(0.0, 1.0, 1.0 - dist(hand[ThumbTip], hand[IndexTip]) * 2.0)
  }

  /**
   * With a true distance, full strength means the two tips coincide and zero
   * strength means they are at least 0.5 apart (squared distance 0.25).
   */
  lemma PinchStrengthExtremes(hand: Hand, dist: Metric)
    requires Euclidean(dist) && IndexTip < |hand|
    ensures PinchStrength(hand, dist) == 1.0 <==> hand[ThumbTip] == hand[IndexTip]
    ensures PinchStrength(hand, dist) == 0.0 <==> DistSq(hand[ThumbTip], hand[IndexTip]) >= 0.25
  {
    var a, b := hand[ThumbTip], hand[IndexTip];
    EuclideanFacts(dist, a, b);
    SquareLess(dist(a, b), 0.5);
  }

  /** `calculatePinchAngle`: 0 below nine landmarks, else the primitive's angle of tips 4 to 8. */
  function PinchAngle(hand: Hand, angle: Metric): (r: real)
    ensures |hand| <= IndexTip ==> r == 0.0
    ensures AngleRange(angle) ==> -180.0 <= r <= 180.0
  {
    if |hand| <= IndexTip then 0.0 else angle(hand[ThumbTip], hand[IndexTip])
  }

  /** `calculateHandDistance`: the distance between the palm bases, clamped to [0, 1]. */
  function HandDistance(hand1: Hand, hand2: Hand, dist: Metric): (r: real)
    ensures 0.0 <= r <= 1.0
    ensures |hand1| == 0 || |hand2| == 0 ==> r == 0.0
  {
    if |hand1| < 1 || |hand2| < 1 then 0.0
    else Clamp(0.0, 1.0, dist(hand1[PalmBase], hand2[PalmBase]))
  }

  /** With a true distance, the hand distance does not depend on argument order. */
  lemma HandDistanceSymmetric(hand1: Hand, hand2: Hand, dist: Metric)
    requires Euclidean(dist)
    ensures HandDistance(hand1, hand2, dist) == HandDistance(hand2, hand1, dist)
  {
    if |hand1| >= 1 && |hand2| >= 1 {
      EuclideanFacts(dist, hand1[PalmBase], hand2[PalmBase]);
    }
  }

  /** With a true distance, two hands whose palm bases coincide are at distance 0. */
  lemma HandDistanceSelf(hand1: Hand, hand2: Hand, dist: Metric)
    requires Euclidean(dist) && |hand1| >= 1 && |hand2| >= 1 && hand1[PalmBase] == hand2[PalmBase]
    ensures HandDistance(hand1, hand2, dist) == 0.0
  {
    EuclideanFacts(dist, hand1[PalmBase], hand2[PalmBase]);
  }

  // ---------------------------------------------------------------------------
  // The per-frame record

  /** The fields of the `GestureData` interface, as one value. */
  datatype GestureState = GestureState(
    leftHandOpen: bool,
    rightHandOpen: bool,
    handDistance: real,
    pinchStrength: real,
    pinchAngle: real,
    handsDetected: nat,
    confidence: real)

  /** The record's documented ranges. */
  predicate InRange(g: GestureState)
  {
    0.0 <= g.handDistance <= 1.0 &&
    0.0 <= g.pinchStrength <= 1.0 &&
    -180.0 <= g.pinchAngle <= 180.0 &&
    0.0 <= g.confidence <= 1.0
  }

  const Initial: GestureState := GestureState(false, false, 0.0, 0.0, 0.0, 0, 0.0)

  /** `handedness[0] === name`; a missing label equals nothing. */
  predicate LabelIs(handedness: seq<string>, name: string)
    ensures |handedness| == 0 ==> !LabelIs(handedness, name)
    ensures LabelIs(handedness, name) ==> handedness[0] == name
  {
    |handedness| > 0 && handedness[0] == name
  }

  /** No first label is both "Left" and "Right": the two-hand ternaries never both pick hand 0. */
  lemma LabelsExclusive(handedness: seq<string>)
    ensures !(LabelIs(handedness, "Left") && LabelIs(handedness, "Right"))
  {
  }

  /**
   * The two-hand assignment: left is hand 0 iff the first label is "Left",
   * right is hand 0 iff the first label is "Right", and otherwise hand 1.
   */
  function ResolveHands(hands: seq<Hand>, handedness: seq<string>): (r: (Hand, Hand))
    requires |hands| == 2
    ensures LabelIs(handedness, "Left") ==> r == (hands[0], hands[1])
    ensures LabelIs(handedness, "Right") ==> r == (hands[1], hands[0])
    ensures !LabelIs(handedness, "Left") && !LabelIs(handedness, "Right") ==> r == (hands[1], hands[1])
  {
    var leftHand := if LabelIs(handedness, "Left") then hands[0] else hands[1];
    var rightHand := if LabelIs(handedness, "Right") then hands[0] else hands[1];
    (leftHand, rightHand)
  }

  /**
   * `processGestureData` on the record `prev`: the hand count and the fixed
   * confidence are always written; the other fields only by the branch for
   * 0, 1 or 2 hands, so whatever a branch does not write keeps its old value.
   */
  function Classify(prev: GestureState, hands: seq<Hand>, handedness: seq<string>, dist: Metric, angle: Metric): (r: GestureState)
    ensures r.handsDetected == |hands| && r.confidence == FixedConfidence
  {
    var g := prev.(handsDetected := |hands|, confidence := FixedConfidence);
    if |hands| == 0 then
      g.(leftHandOpen := false, rightHandOpen := false, handDistance := 0.0, pinchStrength := 0.0)
    else if |hands| == 1 then
      var hand := hands[0];
      var isOpen := HandOpen(hand, dist);
      var g' := if LabelIs(handedness, "Left")
        then g.(leftHandOpen := isOpen, rightHandOpen := false)
        else g.(rightHandOpen := isOpen, leftHandOpen := false);
      g'.(handDistance := 0.0, pinchStrength := PinchStrength(hand, dist), pinchAngle := PinchAngle(hand, angle))
    else if |hands| == 2 then
      var (leftHand, rightHand) := ResolveHands(hands, handedness);
      g.(leftHandOpen := HandOpen(leftHand, dist), rightHandOpen := HandOpen(rightHand, dist),
         handDistance := HandDistance(leftHand, rightHand, dist),
         pinchStrength := PinchStrength(rightHand, dist), pinchAngle := PinchAngle(rightHand, angle))
    else
      g
  }

  /** Every frame keeps the record within its documented ranges. */
  lemma ClassifyInRange(prev: GestureState, hands: seq<Hand>, handedness: seq<string>, dist: Metric, angle: Metric)
    requires InRange(prev) && AngleRange(angle)
    ensures InRange(Classify(prev, hands, handedness, dist, angle))
  {
  }

  /**
   * The zero-hand branch clears the flags, the hand distance and the pinch
   * strength, but the pinch angle survives from the previous frame.
   */
  lemma ClassifyNoHands(prev: GestureState, handedness: seq<string>, dist: Metric, angle: Metric)
    ensures Classify(prev, [], handedness, dist, angle) ==
      GestureState(false, false, 0.0, 0.0, prev.pinchAngle, 0, FixedConfidence)
  {
  }

  /**
   * One hand: its openness goes to the left flag iff its label is "Left",
   * to the right flag otherwise, and the other flag is false.
   */
  lemma ClassifyOneHand(prev: GestureState, hand: Hand, handedness: seq<string>, dist: Metric, angle: Metric)
    ensures var left := LabelIs(handedness, "Left");
      Classify(prev, [hand], handedness, dist, angle) ==
        GestureState(left && HandOpen(hand, dist), !left && HandOpen(hand, dist), 0.0,
                     PinchStrength(hand, dist), PinchAngle(hand, angle), 1, FixedConfidence)
    ensures var r := Classify(prev, [hand], handedness, dist, angle);
      !(r.leftHandOpen && r.rightHandOpen)
  {
  }

  /**
   * Two hands listed in either order give the same record as long as the
   * first label names the first hand correctly.
   */
  lemma ClassifySwapped(prev: GestureState, a: Hand, b: Hand, rest: seq<string>, dist: Metric, angle: Metric)
    ensures Classify(prev, [a, b], ["Left"] + rest, dist, angle) == Classify(prev, [b, a], ["Right"] + rest, dist, angle)
  {
  }

  /**
   * Two hands whose first label is neither "Left" nor "Right" both resolve
   * to hand 1: the flags agree, the hand distance is 0 and the pinch
   * strength and angle come from hand 1.
   */
  lemma ClassifyUnlabelledPair(prev: GestureState, a: Hand, b: Hand, handedness: seq<string>, dist: Metric, angle: Metric)
    requires Euclidean(dist)
    requires !LabelIs(handedness, "Left") && !LabelIs(handedness, "Right")
    ensures Classify(prev, [a, b], handedness, dist, angle) ==
      GestureState(HandOpen(b, dist), HandOpen(b, dist), 0.0,
                   PinchStrength(b, dist), PinchAngle(b, angle), 2, FixedConfidence)
  {
    if |b| >= 1 {
      HandDistanceSelf(b, b, dist);
    }
  }

  /**
   * Two hands, the first labelled "Left": hand 0 is the left hand, and the
   * pinch strength and angle come only from the right hand, hand 1.
   */
  lemma ClassifyTwoHandsLeft(prev: GestureState, a: Hand, b: Hand, rest: seq<string>, dist: Metric, angle: Metric)
    ensures Classify(prev, [a, b], ["Left"] + rest, dist, angle) ==
      GestureState(HandOpen(a, dist), HandOpen(b, dist), HandDistance(a, b, dist),
                   PinchStrength(b, dist), PinchAngle(b, angle), 2, FixedConfidence)
  {
  }

  /**
   * Two hands, the first labelled "Right": hand 0 is the right hand and
   * supplies the pinch; hand 1 is the left hand.
   */
  lemma ClassifyTwoHandsRight(prev: GestureState, a: Hand, b: Hand, rest: seq<string>, dist: Metric, angle: Metric)
    ensures Classify(prev, [a, b], ["Right"] + rest, dist, angle) ==
      GestureState(HandOpen(b, dist), HandOpen(a, dist), HandDistance(b, a, dist),
                   PinchStrength(a, dist), PinchAngle(a, angle), 2, FixedConfidence)
  {
  }

  /** More than two hands: only the count and the confidence change. */
  lemma ClassifyManyHands(prev: GestureState, hands: seq<Hand>, handedness: seq<string>, dist: Metric, angle: Metric)
    requires |hands| > 2
    ensures Classify(prev, hands, handedness, dist, angle) ==
      prev.(handsDetected := |hands|, confidence := FixedConfidence)
  {
  }

  /**
   * `onHandsResults` on the record `prev`: a frame without landmarks is not
   * processed at all, so the previous record is what the callback receives.
   */
  function Received(prev: GestureState, hands: seq<Hand>, handedness: seq<string>, dist: Metric, angle: Metric): (r: GestureState)
    ensures |hands| > 0 ==> r.handsDetected == |hands| && r.confidence == FixedConfidence
    ensures r.handsDetected == 0 ==> r == prev
  {
    if |hands| > 0 then Classify(prev, hands, handedness, dist, angle) else prev
  }

  /**
   * As written, once a hand has been seen the record never reports zero
   * hands again: a frame without landmarks re-sends the previous record,
   * hand count, open flags and hand distance included.
   */
  lemma ReceivedKeepsStaleHands(prev: GestureState, handedness: seq<string>, dist: Metric, angle: Metric)
    requires prev.handsDetected > 0
    ensures Received(prev, [], handedness, dist, angle) == prev
    ensures Received(prev, [], handedness, dist, angle).handsDetected > 0
  {
  }

  /**
   * The evidently intended frame: the `length > 0` gate dropped, so every
   * result, empty or not, goes through `processGestureData`. It is
   * therefore `Classify` itself; it is named only to state the corrected
   * behaviour beside `Received`.
   */
  function ReceivedIntended(prev: GestureState, hands: seq<Hand>, handedness: seq<string>, dist: Metric, angle: Metric): GestureState
  {
    Classify(prev, hands, handedness, dist, angle)
  }

  /** With every frame processed, a frame without hands reports zero hands and clears flags, distance and strength. */
  lemma ReceivedIntendedClears(prev: GestureState, handedness: seq<string>, dist: Metric, angle: Metric)
    ensures var r := ReceivedIntended(prev, [], handedness, dist, angle);
      r.handsDetected == 0 && !r.leftHandOpen && !r.rightHandOpen && r.handDistance == 0.0 && r.pinchStrength == 0.0
  {
  }

  // ---------------------------------------------------------------------------
  // The recognizer object

  /** The mutable `gestureData` object; the recognizer owns one for its whole life. */
  class GestureData {
    var leftHandOpen: bool
    var rightHandOpen: bool
    var handDistance: real
    var pinchStrength: real
    var pinchAngle: real
    var handsDetected: nat
    var confidence: real

    function Snapshot(): GestureState
      reads this
    {
      GestureState(leftHandOpen, rightHandOpen, handDistance, pinchStrength, pinchAngle, handsDetected, confidence)
    }

    constructor ()
      ensures Snapshot() == Initial
    {
      leftHandOpen, rightHandOpen := false, false;
      handDistance, pinchStrength, pinchAngle := 0.0, 0.0, 0.0;
      handsDetected, confidence := 0, 0.0;
    }
  }

  class GestureRecognizer {
    const gestureData: GestureData
    /** Whether `onGestureChange` has registered a callback. */
    var hasCallback: bool
    /** The records handed to the callback so far, oldest first. */
    var delivered: seq<GestureState>

    ghost predicate Valid()
      reads this, gestureData
    {
      InRange(gestureData.Snapshot())
    }

    constructor ()
      ensures Valid() && fresh(gestureData)
      ensures gestureData.Snapshot() == Initial
      ensures !hasCallback && delivered == []
    {
      gestureData := new GestureData();
      hasCallback := false;
      delivered := [];
    }

    method OnGestureChange()
      modifies this`hasCallback
      ensures hasCallback
    {
      hasCallback := true;
    }

    /** Writes the fields of the persistent record that the branch for this hand count writes. */
    method ProcessGestureData(landmarks: seq<Hand>, handedness: seq<string>, dist: Metric, angle: Metric)
      requires Valid() && AngleRange(angle)
      modifies gestureData
      ensures Valid()
      ensures gestureData.Snapshot() == Classify(old(gestureData.Snapshot()), landmarks, handedness, dist, angle)
    {
      ghost var prev := gestureData.Snapshot();
      ClassifyInRange(prev, landmarks, handedness, dist, angle);
      gestureData.handsDetected := |landmarks|;
      gestureData.confidence := FixedConfidence;

      if |landmarks| == 0 {
        gestureData.leftHandOpen := false;
        gestureData.rightHandOpen := false;
        gestureData.handDistance := 0.0;
        gestureData.pinchStrength := 0.0;
        return;
      }

      if |landmarks| == 1 {
        var hand := landmarks[0];
        var isOpen := IsHandOpen(hand, dist);
        if LabelIs(handedness, "Left") {
          gestureData.leftHandOpen := isOpen;
          gestureData.rightHandOpen := false;
        } else {
          gestureData.rightHandOpen := isOpen;
          gestureData.leftHandOpen := false;
        }
        gestureData.handDistance := 0.0;
        gestureData.pinchStrength := PinchStrength(hand, dist);
        gestureData.pinchAngle := PinchAngle(hand, angle);
      } else if |landmarks| == 2 {
        var leftHand := if LabelIs(handedness, "Left") then landmarks[0] else landmarks[1];
        var rightHand := if LabelIs(handedness, "Right") then landmarks[0] else landmarks[1];
        gestureData.leftHandOpen := IsHandOpen(leftHand, dist);
        gestureData.rightHandOpen := IsHandOpen(rightHand, dist);
        gestureData.handDistance := HandDistance(leftHand, rightHand, dist);
        gestureData.pinchStrength := PinchStrength(rightHand, dist);
        gestureData.pinchAngle := PinchAngle(rightHand, angle);
      }
    }

    /**
     * The gating of `onHandsResults`: process only a non-empty landmark list,
     * then hand the (possibly unchanged) record to the callback if one is set.
     */
    method OnHandsResults(landmarks: seq<Hand>, handedness: seq<string>, dist: Metric, angle: Metric)
      requires Valid() && AngleRange(angle)
      modifies this`delivered, gestureData
      ensures Valid()
      ensures gestureData.Snapshot() == Received(old(gestureData.Snapshot()), landmarks, handedness, dist, angle)
      ensures delivered == if hasCallback then old(delivered) + [gestureData.Snapshot()] else old(delivered)
    {
      if |landmarks| > 0 {
        ProcessGestureData(landmarks, handedness, dist, angle);
      }
      if hasCallback {
        delivered := delivered + [gestureData.Snapshot()];
      }
    }
  }
}
