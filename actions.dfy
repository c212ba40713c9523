/** The action labels the controller announces, and the fixed per-gesture
    constants of the detector: filter window sizes, hysteresis margins and
    the priority order. */
module Actions {

  /** NEUTRE plus the seven gestures, named as the controller names them. */
  datatype Action = Neutre | Reflechir | Malicieux | ClinDoeil | Penche | Froncement | Haussement | Sourire

  /** A gesture is any action other than the neutral one. */
  type Gesture = a: Action | a != Neutre witness Reflechir

  /** Position in the priority order REFLECHIR > MALICIEUX > CLIN_DOEIL >
      PENCHE > FRONCEMENT > HAUSSEMENT > SOURIRE (0 is the highest). */
  function Rank(g: Gesture): (r: nat)
    ensures r < 7
  {
    match g
    case Reflechir => 0
    case Malicieux => 1
    case ClinDoeil => 2
    case Penche => 3
    case Froncement => 4
    case Haussement => 5
    case Sourire => 6
  }

  /** The priority order is strict: no two gestures share a rank. */
  lemma RankDistinct(g: Gesture, h: Gesture)
    ensures Rank(g) == Rank(h) ==> g == h
  {
  }

  /** The window size each gesture's filter is built with. */
  function WindowSize(g: Gesture): (n: nat)
    ensures 4 <= n <= 6
  {
    match g
    case Froncement => 6
    case Sourire => 6
    case Haussement => 4
    case Malicieux => 5
    case Penche => 6
    case ClinDoeil => 4
    case Reflechir => 5
  }

  /** The release threshold of a gesture is its sensitivity minus this margin. */
  function Margin(g: Gesture): (m: real)
    ensures 0.10 <= m <= 0.15
  {
    if g == Penche then 0.10 else 0.15
  }

  /** A table keyed by gestures that has an entry for every gesture. */
  predicate Full<V>(m: map<Gesture, V>) {
    forall g: Gesture :: g in m
  }
}
