/** One frame of gesture arbitration: the seven gesture filters are updated
    in a fixed order, a gesture that an earlier gesture's result silences
    is not updated at all, and the first gesture latched in priority order
    is the frame's physical action. Everything here is on values; the
    detector object in module Detector performs the same updates in place. */
module Arbiter {
  import opened Actions
  import opened Stabilizer
  import opened Features

  /** The seven filters, one per gesture: the detector's filter table. */
  datatype Bank = Bank(reflechir: Filter, malicieux: Filter, clinDoeil: Filter, penche: Filter,
                       froncement: Filter, haussement: Filter, sourire: Filter)

  /** Gesture g's filter. */
  function FilterOf(b: Bank, g: Gesture): Filter {
    match g
    case Reflechir => b.reflechir
    case Malicieux => b.malicieux
    case ClinDoeil => b.clinDoeil
    case Penche => b.penche
    case Froncement => b.froncement
    case Haussement => b.haussement
    case Sourire => b.sourire
  }

  /** A well-formed filter of gesture g's window size. */
  predicate FilterFor(f: Filter, g: Gesture) {
    f.capacity == WindowSize(g) && WellFormed(f)
  }

  /** Every gesture's filter is well formed and has its own window size. */
  predicate ValidBank(b: Bank) {
    FilterFor(b.reflechir, Reflechir) && FilterFor(b.malicieux, Malicieux) &&
    FilterFor(b.clinDoeil, ClinDoeil) && FilterFor(b.penche, Penche) &&
    FilterFor(b.froncement, Froncement) && FilterFor(b.haussement, Haussement) &&
    FilterFor(b.sourire, Sourire)
  }

  /** The filters as the detector builds them. */
  function InitialBank(): (b: Bank)
    ensures ValidBank(b)
    ensures forall g :: FilterOf(b, g) == Fresh(WindowSize(g))
  {
    Bank(Fresh(5), Fresh(5), Fresh(4), Fresh(6), Fresh(6), Fresh(4), Fresh(6))
  }

  /** A gesture missing from the enabled table counts as enabled. */
  function Enabled(enabled: map<Gesture, bool>, g: Gesture): bool {
    if g in enabled then enabled[g] else true
  }

  /** The release threshold that goes with sensitivity `high`. */
  function Low(thresholds: map<Gesture, real>, g: Gesture): real
    requires Full(thresholds)
  {
    thresholds[g] - Margin(g)
  }

  /** The per-frame results `is_thinking`, `is_malicious`, ... */
  datatype Flags = Flags(thinking: bool, malicious: bool, winking: bool, tilting: bool,
                         frowning: bool, raising: bool, smiling: bool)

  function FlagOf(f: Flags, g: Gesture): bool {
    match g
    case Reflechir => f.thinking
    case Malicieux => f.malicious
    case ClinDoeil => f.winking
    case Penche => f.tilting
    case Froncement => f.frowning
    case Haussement => f.raising
    case Sourire => f.smiling
  }

  /** The raw signal each gesture's filter is fed. */
  function SignalOf(sig: Signals, g: Gesture): real {
    match g
    case Reflechir => sig.thinking
    case Malicieux => sig.malicious
    case ClinDoeil => sig.wink
    case Penche => sig.tilt
    case Froncement => sig.frown
    case Haussement => sig.browUp
    case Sourire => sig.smile
  }

  /** The suppression policy as a table: when gesture g is evaluated, given
      the results of the gestures before it in this frame. */
  function Guard(g: Gesture, f: Flags, enabled: map<Gesture, bool>, hasHandModel: bool): (r: bool)
    ensures r ==> Enabled(enabled, g) && (g == Reflechir ==> hasHandModel)
    ensures !r && Enabled(enabled, g) && (g == Reflechir ==> hasHandModel) ==>
              (f.malicious && Rank(Malicieux) < Rank(g)) || (f.winking && Rank(ClinDoeil) < Rank(g)) ||
              (f.tilting && Rank(Penche) < Rank(g))
  {
    match g
    case Reflechir => Enabled(enabled, g) && hasHandModel
    case Malicieux => Enabled(enabled, g)
    case ClinDoeil => Enabled(enabled, g) && !f.malicious
    case Penche => Enabled(enabled, g) && !f.malicious && !f.winking
    case Froncement => Enabled(enabled, g) && !f.malicious && !f.winking
    case Haussement => Enabled(enabled, g) && !f.tilting
    case Sourire => Enabled(enabled, g) && !f.malicious && !f.winking && !f.tilting
  }

  /** Gesture g's filter after this frame: updated with x when `guard`
      holds, otherwise frozen (window and latch). */
  function Consider(f: Filter, g: Gesture, guard: bool, x: real, thresholds: map<Gesture, real>): (r: Filter)
    requires FilterFor(f, g) && Full(thresholds)
    ensures FilterFor(r, g)
    ensures !guard ==> r == f
  {
    if guard then Step(f, x, thresholds[g], Low(thresholds, g)) else f
  }

  datatype Outcome = Outcome(bank: Bank, flags: Flags)

  /** The seven updates in the detector's order, each guarded by the
      results computed before it in this frame. A gesture that is not
      evaluated reports false. */
  function Evaluate(b: Bank, sig: Signals, thresholds: map<Gesture, real>,
                    enabled: map<Gesture, bool>, hasHandModel: bool): (r: Outcome)
    requires ValidBank(b) && Full(thresholds)
    ensures ValidBank(r.bank)
    ensures r.flags.malicious ==> !r.flags.winking && !r.flags.tilting && !r.flags.frowning && !r.flags.smiling
    ensures r.flags.winking ==> !r.flags.tilting && !r.flags.frowning && !r.flags.smiling
    ensures r.flags.tilting ==> !r.flags.raising && !r.flags.smiling
    ensures r.flags.thinking ==> hasHandModel
  {
    var gT := Enabled(enabled, Reflechir) && hasHandModel;
    var fT := Consider(b.reflechir, Reflechir, gT, sig.thinking, thresholds);
    var isThinking := gT && fT.state;
    var gM := Enabled(enabled, Malicieux);
    var fM := Consider(b.malicieux, Malicieux, gM, sig.malicious, thresholds);
    var isMalicious := gM && fM.state;
    var gW := Enabled(enabled, ClinDoeil) && !isMalicious;
    var fW := Consider(b.clinDoeil, ClinDoeil, gW, sig.wink, thresholds);
    var isWinking := gW && fW.state;
    var gP := Enabled(enabled, Penche) && !isMalicious && !isWinking;
    var fP := Consider(b.penche, Penche, gP, sig.tilt, thresholds);
    var isTilting := gP && fP.state;
    var gF := Enabled(enabled, Froncement) && !isMalicious && !isWinking;
    var fF := Consider(b.froncement, Froncement, gF, sig.frown, thresholds);
    var isFrowning := gF && fF.state;
    var gH := Enabled(enabled, Haussement) && !isTilting;
    var fH := Consider(b.haussement, Haussement, gH, sig.browUp, thresholds);
    var isRaising := gH && fH.state;
    var gS := Enabled(enabled, Sourire) && !isMalicious && !isWinking && !isTilting;
    var fS := Consider(b.sourire, Sourire, gS, sig.smile, thresholds);
    var isSmiling := gS && fS.state;
    Outcome(Bank(fT, fM, fW, fP, fF, fH, fS),
            Flags(isThinking, isMalicious, isWinking, isTilting, isFrowning, isRaising, isSmiling))
  }

  /** The chained evaluation is determined by its seven steps: any bank
      and flags that take each step in turn are its outcome. */
  lemma EvaluateSteps(b: Bank, sig: Signals, thresholds: map<Gesture, real>,
                      enabled: map<Gesture, bool>, hasHandModel: bool, after: Bank, flags: Flags)
    requires ValidBank(b) && Full(thresholds)
    requires var gT := Enabled(enabled, Reflechir) && hasHandModel;
             after.reflechir == Consider(b.reflechir, Reflechir, gT, sig.thinking, thresholds) &&
             flags.thinking == (gT && after.reflechir.state)
    requires var gM := Enabled(enabled, Malicieux);
             after.malicieux == Consider(b.malicieux, Malicieux, gM, sig.malicious, thresholds) &&
             flags.malicious == (gM && after.malicieux.state)
    requires var gW := Enabled(enabled, ClinDoeil) && !flags.malicious;
             after.clinDoeil == Consider(b.clinDoeil, ClinDoeil, gW, sig.wink, thresholds) &&
             flags.winking == (gW && after.clinDoeil.state)
    requires var gP := Enabled(enabled, Penche) && !flags.malicious && !flags.winking;
             after.penche == Consider(b.penche, Penche, gP, sig.tilt, thresholds) &&
             flags.tilting == (gP && after.penche.state)
    requires var gF := Enabled(enabled, Froncement) && !flags.malicious && !flags.winking;
             after.froncement == Consider(b.froncement, Froncement, gF, sig.frown, thresholds) &&
             flags.frowning == (gF && after.froncement.state)
    requires var gH := Enabled(enabled, Haussement) && !flags.tilting;
             after.haussement == Consider(b.haussement, Haussement, gH, sig.browUp, thresholds) &&
             flags.raising == (gH && after.haussement.state)
    requires var gS := Enabled(enabled, Sourire) && !flags.malicious && !flags.winking && !flags.tilting;
             after.sourire == Consider(b.sourire, Sourire, gS, sig.smile, thresholds) &&
             flags.smiling == (gS && after.sourire.state)
    ensures Evaluate(b, sig, thresholds, enabled, hasHandModel) == Outcome(after, flags)
  {
  }

  /** Gesture g's row of the guard table holds of an evaluation r of bank
      b: g's filter is updated once, with its own signal, exactly when its
      guard holds, and is otherwise frozen (window and latch) with its
      result off. */
  predicate TableRow(b: Bank, sig: Signals, thresholds: map<Gesture, real>,
                     enabled: map<Gesture, bool>, hasHandModel: bool, r: Outcome, g: Gesture)
    requires ValidBank(b) && Full(thresholds)
  {
    var stepped := Step(FilterOf(b, g), SignalOf(sig, g), thresholds[g], Low(thresholds, g));
    (Guard(g, r.flags, enabled, hasHandModel) ==> FilterOf(r.bank, g) == stepped && FlagOf(r.flags, g) == stepped.state) &&
    (!Guard(g, r.flags, enabled, hasHandModel) ==> FilterOf(r.bank, g) == FilterOf(b, g) && !FlagOf(r.flags, g))
  }

  /** The chained evaluation agrees with the guard table, row by row. */
  lemma EvaluateByTable(b: Bank, sig: Signals, thresholds: map<Gesture, real>,
                        enabled: map<Gesture, bool>, hasHandModel: bool, g: Gesture)
    requires ValidBank(b) && Full(thresholds)
    ensures TableRow(b, sig, thresholds, enabled, hasHandModel, Evaluate(b, sig, thresholds, enabled, hasHandModel), g)
  {
  }

  /** A gesture reported on this frame was evaluated this frame; in
      particular it is enabled. */
  lemma LatchedIsGuarded(b: Bank, sig: Signals, thresholds: map<Gesture, real>,
                         enabled: map<Gesture, bool>, hasHandModel: bool)
    requires ValidBank(b) && Full(thresholds)
    ensures var r := Evaluate(b, sig, thresholds, enabled, hasHandModel);
            forall g :: FlagOf(r.flags, g) ==> Guard(g, r.flags, enabled, hasHandModel) && Enabled(enabled, g)
  {
    var r := Evaluate(b, sig, thresholds, enabled, hasHandModel);
    forall g | FlagOf(r.flags, g) ensures Guard(g, r.flags, enabled, hasHandModel) && Enabled(enabled, g) {
      EvaluateByTable(b, sig, thresholds, enabled, hasHandModel, g);
      assert TableRow(b, sig, thresholds, enabled, hasHandModel, r, g);
    }
  }

  /** Priority pick: the first latched gesture in priority order, or NEUTRE
      when none is latched. */
  function Winner(f: Flags): (a: Action)
    ensures a == Neutre <==> forall g :: !FlagOf(f, g)
    ensures a != Neutre ==> FlagOf(f, a) && forall g :: Rank(g) < Rank(a) ==> !FlagOf(f, g)
  {
    if f.thinking then assert FlagOf(f, Reflechir); Reflechir
    else if f.malicious then assert FlagOf(f, Malicieux); Malicieux
    else if f.winking then assert FlagOf(f, ClinDoeil); ClinDoeil
    else if f.tilting then assert FlagOf(f, Penche); Penche
    else if f.frowning then assert FlagOf(f, Froncement); Froncement
    else if f.raising then assert FlagOf(f, Haussement); Haussement
    else if f.smiling then assert FlagOf(f, Sourire); Sourire
    else Neutre
  }

  /** The raw signals of a frame in which a face is present. The thinking
      signal is computed only when the hand model is loaded. */
  function FrameSignals(snap: Snapshot, hasHandModel: bool): (sig: Signals)
    requires FacePresent(snap) && WellFormedSnapshot(snap)
    ensures sig.thinking >= 0.0 && (!hasHandModel ==> sig.thinking == 0.0)
    ensures sig.malicious == MaliciousSignal(sig.browDown, sig.smile)
    ensures sig.frown == FrownSignal(sig.browDown, sig.browUp)
  {
    var thinking := if hasHandModel then ThinkingSignal(snap.hands) else 0.0;
    Extract(Scores(snap.faceBlendshapes[0]), snap.faceLandmarks[0], thinking)
  }

  datatype Classified = Classified(bank: Bank, physical: Action)

  /** One frame: with no face (or no blendshapes) nothing is evaluated and
      the physical action is NEUTRE; otherwise the seven filters are
      evaluated and the priority pick decides. */
  function Classify(b: Bank, snap: Snapshot, thresholds: map<Gesture, real>,
                    enabled: map<Gesture, bool>, hasHandModel: bool): (c: Classified)
    requires ValidBank(b) && Full(thresholds) && WellFormedSnapshot(snap)
    ensures ValidBank(c.bank)
    ensures !FacePresent(snap) ==> c.bank == b && c.physical == Neutre
    ensures c.physical == Reflechir ==> hasHandModel && Enabled(enabled, Reflechir)
    ensures c.physical != Neutre ==> FacePresent(snap) && Enabled(enabled, c.physical)
  {
    if FacePresent(snap) then
      var sig := FrameSignals(snap, hasHandModel);
      var r := Evaluate(b, sig, thresholds, enabled, hasHandModel);
      LatchedIsGuarded(b, sig, thresholds, enabled, hasHandModel);
      Classified(r.bank, Winner(r.flags))
    else
      Classified(b, Neutre)
  }

  /** Every window value of filter g, and the new value, exceed g's
      sensitivity. */
  predicate Saturated(b: Bank, g: Gesture, x: real, thresholds: map<Gesture, real>)
    requires ValidBank(b) && Full(thresholds)
  {
    Above(FilterOf(b, g).history, thresholds[g]) && thresholds[g] < x
  }

  /** Priority exclusivity: when the thinking gesture is evaluated and its
      window is saturated, the frame is REFLECHIR whatever else fires. */
  lemma ThinkingOutranks(b: Bank, snap: Snapshot, thresholds: map<Gesture, real>,
                         enabled: map<Gesture, bool>, hasHandModel: bool)
    requires ValidBank(b) && Full(thresholds) && WellFormedSnapshot(snap)
    requires FacePresent(snap) && hasHandModel && Enabled(enabled, Reflechir)
    requires Saturated(b, Reflechir, FrameSignals(snap, hasHandModel).thinking, thresholds)
    ensures Classify(b, snap, thresholds, enabled, hasHandModel).physical == Reflechir
  {
    var sig := FrameSignals(snap, hasHandModel);
    var r := Evaluate(b, sig, thresholds, enabled, hasHandModel);
    EvaluateByTable(b, sig, thresholds, enabled, hasHandModel, Reflechir);
    StepAbove(b.reflechir, sig.thinking, thresholds[Reflechir], Low(thresholds, Reflechir));
  }

  /** Priority exclusivity, second rank: when the thinking gesture cannot
      be evaluated (no hand model, or disabled) and the malicious window is
      saturated, the frame is MALICIEUX whatever else fires. */
  lemma MaliciousOutranks(b: Bank, snap: Snapshot, thresholds: map<Gesture, real>,
                          enabled: map<Gesture, bool>, hasHandModel: bool)
    requires ValidBank(b) && Full(thresholds) && WellFormedSnapshot(snap)
    requires FacePresent(snap) && !(hasHandModel && Enabled(enabled, Reflechir)) && Enabled(enabled, Malicieux)
    requires Saturated(b, Malicieux, FrameSignals(snap, hasHandModel).malicious, thresholds)
    ensures Classify(b, snap, thresholds, enabled, hasHandModel).physical == Malicieux
  {
    var sig := FrameSignals(snap, hasHandModel);
    var r := Evaluate(b, sig, thresholds, enabled, hasHandModel);
    EvaluateByTable(b, sig, thresholds, enabled, hasHandModel, Reflechir);
    EvaluateByTable(b, sig, thresholds, enabled, hasHandModel, Malicieux);
    StepAbove(b.malicieux, sig.malicious, thresholds[Malicieux], Low(thresholds, Malicieux));
  }

  /** Frown forcing and the strict sensitivity test, with the default
      sensitivity 0.5 of HAUSSEMENT: a raised brow of 0.5 forces the frown
      signal of a 0.9 brow-down to 0, but a fresh HAUSSEMENT filter fed 0.5
      does not latch, since its mean is not strictly above 0.5; fed 0.6 it
      does. */
  lemma RaiseNeedsStrictExcess()
    ensures FrownSignal(0.9, 0.5) == 0.0
    ensures !Step(Fresh(WindowSize(Haussement)), 0.5, 0.5, 0.5 - Margin(Haussement)).state
    ensures Step(Fresh(WindowSize(Haussement)), 0.6, 0.5, 0.5 - Margin(Haussement)).state
  {
    assert [0.5][..0] == [] && [0.6][..0] == [];
  }
}
