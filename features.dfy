/** The per-frame input snapshot and the raw gesture signals derived from
    it. The landmark detectors are not modelled: their output is the
    snapshot, and the chin-to-fingertip distances of each hand arrive
    already computed. */
module Features {

  /** A landmark position (normalised image coordinates). */
  datatype Point = Point(x: real, y: real)

  /** One named blendshape score of the face model. */
  datatype Category = Category(name: string, score: real)

  /** One detected hand, as the distances from the chin landmark to its
      index fingertip and to its thumb tip. */
  datatype Hand = Hand(indexDist: real, thumbDist: real)

  /** What the face and hand detectors report for one frame: the landmark
      lists and blendshape lists of the detected faces (the first face is
      used) and the detected hands. */
  datatype Snapshot = Snapshot(faceLandmarks: seq<seq<Point>>, faceBlendshapes: seq<seq<Category>>, hands: seq<Hand>)

  const LeftEyeCorner: nat := 33
  const RightEyeCorner: nat := 263
  /** Chin-to-hand distance under which the hand counts as touching the chin. */
  const ChinRadius: real := 0.20
  const ThinkingGain: real := 5.0
  const TiltGain: real := 5.0
  /** Both brow-down and smile must reach this for the malicious signal. */
  const MaliciousFloor: real := 0.25
  /** A brow raise above this forces the frown signal to zero. */
  const FrownBrowUpCutoff: real := 0.4

  /** A face is analysed only when both landmarks and blendshapes are present. */
  predicate FacePresent(snap: Snapshot) {
    snap.faceLandmarks != [] && snap.faceBlendshapes != []
  }

  /** The face model's contract: the first face has every landmark index
      the detector reads (the model reports 478). */
  predicate WellFormedSnapshot(snap: Snapshot) {
    FacePresent(snap) ==> |snap.faceLandmarks[0]| > RightEyeCorner
  }

  /** The name-to-score dictionary built from a blendshape list; a later
      entry with the same name overrides an earlier one. */
  function Scores(cats: seq<Category>): (r: map<string, real>)
    ensures |r| <= |cats|
    ensures cats != [] ==> cats[|cats| - 1].name in r && r[cats[|cats| - 1].name] == cats[|cats| - 1].score
    decreases |cats|
  {
    if cats == [] then map[]
    else
      var last := cats[|cats| - 1];
      Scores(cats[..|cats| - 1])[last.name := last.score]
  }

  /** Every name of the list is a key of the dictionary, and every key is
      a name of the list. */
  lemma {:induction false} ScoresKeys(cats: seq<Category>)
    ensures forall i :: 0 <= i < |cats| ==> cats[i].name in Scores(cats)
    ensures forall n :: n in Scores(cats) ==> exists i :: 0 <= i < |cats| && cats[i].name == n
    decreases |cats|
  {
    if cats != [] {
      var init := cats[..|cats| - 1];
      var last := cats[|cats| - 1];
      var m := Scores(init);
      ScoresKeys(init);
      assert Scores(cats) == m[last.name := last.score];
      forall i | 0 <= i < |cats| ensures cats[i].name in Scores(cats) {
        if i < |init| {
          assert init[i] == cats[i];
        }
      }
      forall n | n in Scores(cats) ensures exists i :: 0 <= i < |cats| && cats[i].name == n {
        if n != last.name {
          assert n in m;
          var k :| 0 <= k < |init| && init[k].name == n;
          assert cats[k] == init[k];
        }
      }
    }
  }

  /** Each name maps to the score of its last entry in the list. */
  lemma {:induction false} ScoresLast(cats: seq<Category>)
    ensures forall i :: 0 <= i < |cats| && LastOccurrence(cats, i) ==>
              cats[i].name in Scores(cats) && Scores(cats)[cats[i].name] == cats[i].score
    decreases |cats|
  {
    ScoresKeys(cats);
    if cats != [] {
      var init := cats[..|cats| - 1];
      var last := cats[|cats| - 1];
      var m := Scores(init);
      ScoresLast(init);
      ScoresKeys(init);
      assert Scores(cats) == m[last.name := last.score];
      forall i | 0 <= i < |cats| && LastOccurrence(cats, i)
        ensures cats[i].name in Scores(cats) && Scores(cats)[cats[i].name] == cats[i].score
      {
        if i < |init| {
          assert init[i] == cats[i];
          assert cats[i].name != last.name;
          assert LastOccurrence(init, i);
        }
      }
    }
  }

  /** No later entry of cats carries the same name as entry i. */
  predicate LastOccurrence(cats: seq<Category>, i: nat)
    requires i < |cats|
  {
    forall j :: i < j < |cats| ==> cats[j].name != cats[i].name
  }

  /** A score looked up with 0 as the default for a missing name. */
  function Score(s: map<string, real>, name: string): real {
    if name in s then s[name] else 0.0
  }

  function Max(a: real, b: real): real { if a >= b then a else b }
  function Min(a: real, b: real): real { if a <= b then a else b }
  function Abs(a: real): real { if a >= 0.0 then a else -a }

  /** The stronger of the two brow-down scores. */
  function BrowDown(s: map<string, real>): (r: real)
    ensures r >= Score(s, "browDownLeft") && r >= Score(s, "browDownRight")
    ensures r == Score(s, "browDownLeft") || r == Score(s, "browDownRight")
  {
    Max(Score(s, "browDownLeft"), Score(s, "browDownRight"))
  }

  function BrowUp(s: map<string, real>): real {
    Score(s, "browInnerUp")
  }

  /** The mean of the two mouth-smile scores. */
  function Smile(s: map<string, real>): (r: real)
    ensures Min(Score(s, "mouthSmileLeft"), Score(s, "mouthSmileRight")) <= r <= Max(Score(s, "mouthSmileLeft"), Score(s, "mouthSmileRight"))
  {
    (Score(s, "mouthSmileLeft") + Score(s, "mouthSmileRight")) / 2.0
  }

  /** Head tilt: the height difference of the two outer eye corners, scaled. */
  function Tilt(landmarks: seq<Point>): (r: real)
    requires |landmarks| > RightEyeCorner
    ensures r >= 0.0
    ensures r == 0.0 <==> landmarks[LeftEyeCorner].y == landmarks[RightEyeCorner].y
  {
    Abs(landmarks[LeftEyeCorner].y - landmarks[RightEyeCorner].y) * TiltGain
  }

  /** Wink: how differently the two eyes are closed. */
  function Wink(s: map<string, real>): (r: real)
    ensures r >= 0.0
    ensures r == 0.0 <==> Score(s, "eyeBlinkLeft") == Score(s, "eyeBlinkRight")
  {
    Abs(Score(s, "eyeBlinkLeft") - Score(s, "eyeBlinkRight"))
  }

  /** Malicious: the mean of brow-down and smile, but zero unless both reach
      the floor. */
  function MaliciousSignal(browDown: real, smile: real): (r: real)
    ensures browDown < MaliciousFloor || smile < MaliciousFloor ==> r == 0.0
    ensures browDown >= MaliciousFloor && smile >= MaliciousFloor ==>
              r + r == browDown + smile && MaliciousFloor <= r
    ensures r != 0.0 ==> Min(browDown, smile) <= r <= Max(browDown, smile)
  {
    var m := (browDown + smile) / 2.0;
    if browDown < MaliciousFloor || smile < MaliciousFloor then 0.0 else m
  }

  /** Frown: the brow-down signal, suppressed while the brows are raised. */
  function FrownSignal(browDown: real, browUp: real): (r: real)
    ensures browUp > FrownBrowUpCutoff ==> r == 0.0
    ensures browUp <= FrownBrowUpCutoff ==> r == browDown
  {
    if browUp > FrownBrowUpCutoff then 0.0 else browDown
  }

  /** The closer of a hand's two fingertips to the chin. */
  function MinDist(h: Hand): real {
    Min(h.indexDist, h.thumbDist)
  }

  /** A hand touches the chin when a fingertip is within the radius. */
  predicate Touching(h: Hand) {
    MinDist(h) < ChinRadius
  }

  /** What a touching hand contributes: the closer, the stronger. */
  function Contribution(h: Hand): real {
    (ChinRadius - MinDist(h)) * ThinkingGain
  }

  /** The thinking signal as the detector folds it over the hands: start at
      0 and take the maximum with the contribution of each touching hand. */
  function ThinkingSignal(hands: seq<Hand>): (t: real)
    ensures t >= 0.0
    decreases |hands|
  {
    if hands == [] then 0.0
    else
      var t := ThinkingSignal(hands[..|hands| - 1]);
      var h := hands[|hands| - 1];
      if Touching(h) then Max(t, Contribution(h)) else t
  }

  /** The thinking signal is zero when no hand touches the chin, and
      otherwise the largest contribution of a touching hand. */
  lemma {:induction false} ThinkingIsMax(hands: seq<Hand>)
    ensures ThinkingSignal(hands) >= 0.0
    ensures forall i :: 0 <= i < |hands| && Touching(hands[i]) ==> ThinkingSignal(hands) >= Contribution(hands[i])
    ensures ThinkingSignal(hands) == 0.0 <==> forall i :: 0 <= i < |hands| ==> !Touching(hands[i])
    ensures ThinkingSignal(hands) != 0.0 ==>
              exists i :: 0 <= i < |hands| && Touching(hands[i]) && ThinkingSignal(hands) == Contribution(hands[i])
    decreases |hands|
  {
    if hands != [] {
      var init := hands[..|hands| - 1];
      ThinkingIsMax(init);
      assert forall i :: 0 <= i < |init| ==> init[i] == hands[i];
      var t := ThinkingSignal(init);
      if t != 0.0 {
        var k :| 0 <= k < |init| && Touching(init[k]) && t == Contribution(init[k]);
        assert hands[k] == init[k];
      }
    }
  }

  /** The detector's loop over the detected hands. */
  method RawThinking(hands: seq<Hand>) returns (t: real)
    ensures t == ThinkingSignal(hands)
    ensures t >= 0.0
    ensures forall i :: 0 <= i < |hands| && Touching(hands[i]) ==> t >= Contribution(hands[i])
    ensures t == 0.0 <==> forall i :: 0 <= i < |hands| ==> !Touching(hands[i])
  {
    t := 0.0;
    var i := 0;
    while i < |hands|
      invariant 0 <= i <= |hands|
      invariant t == ThinkingSignal(hands[..i])
    {
      var h := hands[i];
      var minDist := Min(h.indexDist, h.thumbDist);
      if minDist < ChinRadius {
        t := Max(t, (ChinRadius - minDist) * ThinkingGain);
      }
      assert hands[..i + 1][..i] == hands[..i];
      i := i + 1;
    }
    assert hands[..i] == hands;
    ThinkingIsMax(hands);
  }

  /** The raw signals of one frame, as the detector derives them. */
  datatype Signals = Signals(browDown: real, browUp: real, smile: real, tilt: real,
                             thinking: real, malicious: real, wink: real, frown: real)

  /** The signals of a face, given its scores, its landmarks and the
      thinking signal. */
  function Extract(s: map<string, real>, landmarks: seq<Point>, thinking: real): (sig: Signals)
    requires |landmarks| > RightEyeCorner
    ensures sig.thinking == thinking
    ensures sig.malicious == MaliciousSignal(sig.browDown, sig.smile)
    ensures sig.frown == FrownSignal(sig.browDown, sig.browUp)
    ensures sig.tilt >= 0.0 && sig.wink >= 0.0
  {
    var browDown := BrowDown(s);
    var browUp := BrowUp(s);
    var smile := Smile(s);
    Signals(browDown, browUp, smile, Tilt(landmarks), thinking,
            MaliciousSignal(browDown, smile), Wink(s), FrownSignal(browDown, browUp))
  }

  /** Malicious zero-forcing: a strong brow-down with a weak smile
      (0.9 and 0.1) gives no malicious signal. */
  lemma MaliciousNeedsBoth()
    ensures MaliciousSignal(0.9, 0.1) == 0.0
  {
  }
}
