/** The emotion detector object: seven StableScore filters updated in place,
    the announced action and the unlock time. `Detect` performs one frame
    (arbitration and lock) and `Commit` is the caller's commit of the
    returned action. Both are specified by the value-level model in
    modules Arbiter and ActionLock. */
module Detector {
  import opened Actions
  import opened Stabilizer
  import opened Features
  import opened Arbiter
  import opened ActionLock

  class EmotionDetector {
    /** Whether the hand model could be loaded at start-up. */
    const hasHandModel: bool
    /** The filter table: one filter object per gesture, never shared. */
    const reflechir: StableScore
    const malicieux: StableScore
    const clinDoeil: StableScore
    const penche: StableScore
    const froncement: StableScore
    const haussement: StableScore
    const sourire: StableScore
    var currentAction: Action
    var unlockTime: real

    /** The filter objects. */
    ghost function Repr(): set<object> {
      {reflechir, malicieux, clinDoeil, penche, froncement, haussement, sourire}
    }

    /** The seven filter objects are distinct. */
    ghost predicate Distinct() {
      reflechir != malicieux && reflechir != clinDoeil && reflechir != penche &&
      reflechir != froncement && reflechir != haussement && reflechir != sourire &&
      malicieux != clinDoeil && malicieux != penche && malicieux != froncement &&
      malicieux != haussement && malicieux != sourire &&
      clinDoeil != penche && clinDoeil != froncement && clinDoeil != haussement && clinDoeil != sourire &&
      penche != froncement && penche != haussement && penche != sourire &&
      froncement != haussement && froncement != sourire &&
      haussement != sourire
    }

    /** Each filter is valid and has its gesture's window size. */
    ghost predicate Valid()
      reads Repr()
    {
      Distinct() &&
      reflechir.Valid() && reflechir.windowSize == WindowSize(Reflechir) &&
      malicieux.Valid() && malicieux.windowSize == WindowSize(Malicieux) &&
      clinDoeil.Valid() && clinDoeil.windowSize == WindowSize(ClinDoeil) &&
      penche.Valid() && penche.windowSize == WindowSize(Penche) &&
      froncement.Valid() && froncement.windowSize == WindowSize(Froncement) &&
      haussement.Valid() && haussement.windowSize == WindowSize(Haussement) &&
      sourire.Valid() && sourire.windowSize == WindowSize(Sourire)
    }

    /** The seven filters as a value. */
    function Filters(): (b: Bank)
      requires Valid()
      reads Repr()
      ensures ValidBank(b)
    {
      Bank(reflechir.Value(), malicieux.Value(), clinDoeil.Value(), penche.Value(),
           froncement.Value(), haussement.Value(), sourire.Value())
    }

    /** The announced action and the unlock time, as a value. */
    function LockState(): Lock
      reads this
    {
      Lock(currentAction, unlockTime)
    }

    /** A new filter object of window size n, as the filter table builds it. */
    static ghost predicate Built(x: StableScore, n: nat)
      reads x
    {
      x.windowSize == n && x.history == [] && !x.state && x.pushed == []
    }

    /** The filters of FRONCEMENT, SOURIRE and HAUSSEMENT. */
    static method NewFaceFilters() returns (f: StableScore, s: StableScore, h: StableScore)
      ensures fresh(f) && fresh(s) && fresh(h) && f != s && f != h && s != h
      ensures Built(f, 6) && Built(s, 6) && Built(h, 4)
    {
      f := new StableScore(6);
      s := new StableScore(6);
      h := new StableScore(4);
    }

    /** The filters of MALICIEUX, PENCHE, CLIN_DOEIL and REFLECHIR. */
    static method NewOtherFilters() returns (m: StableScore, p: StableScore, w: StableScore, t: StableScore)
      ensures fresh(m) && fresh(p) && fresh(w) && fresh(t)
      ensures m != p && m != w && m != t && p != w && p != t && w != t
      ensures Built(m, 5) && Built(p, 6) && Built(w, 4) && Built(t, 5)
    {
      m := new StableScore(5);
      p := new StableScore(6);
      w := new StableScore(4);
      t := new StableScore(5);
    }

    /** Start-up: fresh filters with the gestures' window sizes, NEUTRE
        announced and unlock time 0. */
    constructor (hasHandModel: bool)
      ensures Valid()
      ensures Filters() == InitialBank()
      ensures LockState() == Initial && this.hasHandModel == hasHandModel
    {
      this.hasHandModel := hasHandModel;
      var f, s, h := NewFaceFilters();
      var m, p, w, t := NewOtherFilters();
      froncement, sourire, haussement, malicieux, penche, clinDoeil, reflechir := f, s, h, m, p, w, t;
      currentAction := Neutre;
      unlockTime := 0.0;
    }

    /** One guarded filter update: the filter of gesture `g` takes the new
        sample only when the guard holds; its latched state counts only then. */
    static method Gate(s: StableScore, g: Gesture, guard: bool, x: real, thresholds: map<Gesture, real>)
      returns (flag: bool)
      requires s.Valid() && s.windowSize == WindowSize(g) && Full(thresholds)
      modifies s
      ensures s.Valid()
      ensures s.Value() == Consider(old(s.Value()), g, guard, x, thresholds)
      ensures flag == (guard && s.state)
    {
      flag := false;
      if guard {
        var smoothed: real;
        flag, smoothed := s.Update(x, thresholds[g], Low(thresholds, g));
      }
    }

    /** The first gestures of the chain: REFLECHIR (only with the hand
        model), then MALICIEUX, then CLIN_DOEIL unless MALICIEUX latched. */
    method EvaluateSuppressors(sig: Signals, thresholds: map<Gesture, real>, enabled: map<Gesture, bool>)
      returns (isThinking: bool, isMalicious: bool, isWinking: bool)
      requires Valid() && Full(thresholds)
      modifies reflechir, malicieux, clinDoeil
      ensures Valid()
      ensures var gT := Enabled(enabled, Reflechir) && hasHandModel;
              reflechir.Value() == Consider(old(reflechir.Value()), Reflechir, gT, sig.thinking, thresholds) &&
              isThinking == (gT && reflechir.state)
      ensures var gM := Enabled(enabled, Malicieux);
              malicieux.Value() == Consider(old(malicieux.Value()), Malicieux, gM, sig.malicious, thresholds) &&
              isMalicious == (gM && malicieux.state)
      ensures var gW := Enabled(enabled, ClinDoeil) && !isMalicious;
              clinDoeil.Value() == Consider(old(clinDoeil.Value()), ClinDoeil, gW, sig.wink, thresholds) &&
              isWinking == (gW && clinDoeil.state)
    {
      isThinking := Gate(reflechir, Reflechir, Enabled(enabled, Reflechir) && hasHandModel, sig.thinking, thresholds);
      isMalicious := Gate(malicieux, Malicieux, Enabled(enabled, Malicieux), sig.malicious, thresholds);
      isWinking := Gate(clinDoeil, ClinDoeil, Enabled(enabled, ClinDoeil) && !isMalicious, sig.wink, thresholds);
    }

    /** PENCHE and FRONCEMENT, both unless MALICIEUX or CLIN_DOEIL latched. */
    method EvaluatePosture(sig: Signals, thresholds: map<Gesture, real>, enabled: map<Gesture, bool>,
                           isMalicious: bool, isWinking: bool)
      returns (isTilting: bool, isFrowning: bool)
      requires Valid() && Full(thresholds)
      modifies penche, froncement
      ensures Valid()
      ensures var gP := Enabled(enabled, Penche) && !isMalicious && !isWinking;
              penche.Value() == Consider(old(penche.Value()), Penche, gP, sig.tilt, thresholds) &&
              isTilting == (gP && penche.state)
      ensures var gF := Enabled(enabled, Froncement) && !isMalicious && !isWinking;
              froncement.Value() == Consider(old(froncement.Value()), Froncement, gF, sig.frown, thresholds) &&
              isFrowning == (gF && froncement.state)
    {
      isTilting := Gate(penche, Penche, Enabled(enabled, Penche) && !isMalicious && !isWinking, sig.tilt, thresholds);
      isFrowning := Gate(froncement, Froncement, Enabled(enabled, Froncement) && !isMalicious && !isWinking, sig.frown, thresholds);
    }

    /** HAUSSEMENT unless PENCHE latched, and SOURIRE unless MALICIEUX,
        CLIN_DOEIL or PENCHE latched. */
    method EvaluateExpressions(sig: Signals, thresholds: map<Gesture, real>, enabled: map<Gesture, bool>,
                               isMalicious: bool, isWinking: bool, isTilting: bool)
      returns (isRaising: bool, isSmiling: bool)
      requires Valid() && Full(thresholds)
      modifies haussement, sourire
      ensures Valid()
      ensures var gH := Enabled(enabled, Haussement) && !isTilting;
              haussement.Value() == Consider(old(haussement.Value()), Haussement, gH, sig.browUp, thresholds) &&
              isRaising == (gH && haussement.state)
      ensures var gS := Enabled(enabled, Sourire) && !isMalicious && !isWinking && !isTilting;
              sourire.Value() == Consider(old(sourire.Value()), Sourire, gS, sig.smile, thresholds) &&
              isSmiling == (gS && sourire.state)
    {
      isRaising := Gate(haussement, Haussement, Enabled(enabled, Haussement) && !isTilting, sig.browUp, thresholds);
      isSmiling := Gate(sourire, Sourire, Enabled(enabled, Sourire) && !isMalicious && !isWinking && !isTilting, sig.smile, thresholds);
    }

    /** The chained evaluation of the seven filters in priority order, each
        one skipped (and its state frozen) when disabled or suppressed by a
        higher-priority gesture already latched in this frame. */
    method EvaluateFilters(sig: Signals, thresholds: map<Gesture, real>, enabled: map<Gesture, bool>)
      returns (flags: Flags)
      requires Valid() && Full(thresholds)
      modifies Repr()
      ensures Valid()
      ensures var r := Evaluate(old(Filters()), sig, thresholds, enabled, hasHandModel);
              Filters() == r.bank && flags == r.flags
    {
      var isThinking, isMalicious, isWinking := EvaluateSuppressors(sig, thresholds, enabled);
      var isTilting, isFrowning := EvaluatePosture(sig, thresholds, enabled, isMalicious, isWinking);
      var isRaising, isSmiling := EvaluateExpressions(sig, thresholds, enabled, isMalicious, isWinking, isTilting);
      flags := Flags(isThinking, isMalicious, isWinking, isTilting, isFrowning, isRaising, isSmiling);
      EvaluateSteps(old(Filters()), sig, thresholds, enabled, hasHandModel, Filters(), flags);
    }

    /** The raw signals of a frame with a face: the blendshape dictionary,
        the landmark formulas and the loop over the detected hands (skipped
        when the hand model is missing). */
    static method FaceSignals(snap: Snapshot, hasHandModel: bool) returns (sig: Signals)
      requires FacePresent(snap) && WellFormedSnapshot(snap)
      ensures sig == FrameSignals(snap, hasHandModel)
    {
      var scores := Scores(snap.faceBlendshapes[0]);
      var landmarks := snap.faceLandmarks[0];
      var thinking := 0.0;
      if hasHandModel && snap.hands != [] {
        thinking := RawThinking(snap.hands);
      }
      sig := Extract(scores, landmarks, thinking);
    }

    /** The arbitration of one frame: NEUTRE when no face is detected,
        otherwise the chained evaluation of the filters and the priority
        pick. */
    method Arbitrate(snap: Snapshot, thresholds: map<Gesture, real>, enabled: map<Gesture, bool>)
      returns (physical: Action)
      requires Valid() && Full(thresholds) && WellFormedSnapshot(snap)
      modifies Repr()
      ensures Valid()
      ensures var c := Classify(old(Filters()), snap, thresholds, enabled, hasHandModel);
              Filters() == c.bank && physical == c.physical
    {
      physical := Neutre;
      if FacePresent(snap) {
        var sig := FaceSignals(snap, hasHandModel);
        var flags := EvaluateFilters(sig, thresholds, enabled);
        physical := Winner(flags);
      }
    }

    /** The lock: keep a non-neutral action until its unlock time, and
        when a new non-neutral action takes over, restart the lock for that
        action's minimum duration. */
    method Hold(physical: Action, now: real, minDurations: map<Action, real>) returns (action: Action)
      modifies this`unlockTime
      ensures var d := Resolve(old(LockState()), physical, now, minDurations);
              action == d.action && unlockTime == d.unlockTime
    {
      if currentAction != Neutre && now < unlockTime {
        return currentAction;
      }
      if physical != currentAction {
        if physical != Neutre {
          unlockTime := now + Duration(minDurations, physical);
        }
        return physical;
      }
      return currentAction;
    }

    /** One frame: arbitrate the snapshot, then apply the lock to the
        physical action. */
    method Detect(snap: Snapshot, thresholds: map<Gesture, real>, enabled: map<Gesture, bool>,
                  minDurations: map<Action, real>, now: real) returns (action: Action)
      requires Valid() && Full(thresholds) && WellFormedSnapshot(snap)
      modifies Repr(), this`unlockTime
      ensures Valid() && currentAction == old(currentAction)
      ensures var c := Classify(old(Filters()), snap, thresholds, enabled, hasHandModel);
              var d := Resolve(old(LockState()), c.physical, now, minDurations);
              Filters() == c.bank && action == d.action && unlockTime == d.unlockTime
    {
      var physical := Arbitrate(snap, thresholds, enabled);
      action := Hold(physical, now, minDurations);
    }

    /** The caller's commit: an action that differs from the announced one
        is announced (the key press is not modelled) and becomes current. */
    method Commit(action: Action) returns (announced: bool)
      modifies this`currentAction
      ensures announced == (action != old(currentAction))
      ensures currentAction == action
    {
      announced := action != currentAction;
      if announced {
        currentAction := action;
      }
    }

    /** A frame as the application loop runs it: detect, then commit. The
        new lock state is one Tick of the lock model. */
    method OnFrame(snap: Snapshot, thresholds: map<Gesture, real>, enabled: map<Gesture, bool>,
                   minDurations: map<Action, real>, now: real) returns (action: Action, announced: bool)
      requires Valid() && Full(thresholds) && WellFormedSnapshot(snap)
      modifies Repr(), this
      ensures Valid()
      ensures var c := Classify(old(Filters()), snap, thresholds, enabled, hasHandModel);
              Filters() == c.bank &&
              LockState() == Tick(old(LockState()), c.physical, now, minDurations) &&
              action == currentAction && announced == (action != old(currentAction))
    {
      action := Detect(snap, thresholds, enabled, minDurations, now);
      announced := Commit(action);
    }
  }
}
