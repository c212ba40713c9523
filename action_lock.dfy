/** The minimum-hold lock on the announced action. The detector keeps the
    announced action and an unlock time. While a non-neutral action is
    locked, every frame returns it unchanged. Otherwise a change to a
    non-neutral action restarts the lock for that action's minimum
    duration, and a change to NEUTRE leaves the unlock time as it was. */
module ActionLock {
  import opened Actions

  /** The announced action and the time before which it may not change. */
  datatype Lock = Lock(current: Action, unlockTime: real)

  /** The state at start-up. */
  const Initial: Lock := Lock(Neutre, 0.0)

  /** The configured minimum hold of an action; a missing entry counts as 0. */
  function Duration(minDurations: map<Action, real>, a: Action): real {
    if a in minDurations then minDurations[a] else 0.0
  }

  /** A non-neutral action whose hold has not yet expired. */
  predicate Locked(l: Lock, now: real) {
    l.current != Neutre && now < l.unlockTime
  }

  /** What one frame of the lock returns, and the unlock time it leaves. */
  datatype Decision = Decision(action: Action, unlockTime: real)

  /** The lock's decision for a frame whose physical action is `physical`. */
  function Resolve(l: Lock, physical: Action, now: real, minDurations: map<Action, real>): (d: Decision)
    ensures Locked(l, now) ==> d == Decision(l.current, l.unlockTime)
    ensures !Locked(l, now) ==> d.action == physical
    ensures d.unlockTime != l.unlockTime ==>
              !Locked(l, now) && d.action != Neutre && d.action != l.current &&
              d.unlockTime == now + Duration(minDurations, d.action)
    ensures !Locked(l, now) && physical != l.current && physical != Neutre ==>
              d.unlockTime == now + Duration(minDurations, physical)
    ensures d.action == Neutre ==> d.unlockTime == l.unlockTime
  {
    if Locked(l, now) then Decision(l.current, l.unlockTime)
    else if physical != l.current then
      if physical != Neutre then Decision(physical, now + Duration(minDurations, physical))
      else Decision(physical, l.unlockTime)
    else Decision(l.current, l.unlockTime)
  }

  /** The caller's commit: the returned action becomes the announced one
      (it is announced only when it differs from the previous one). */
  function Commit(l: Lock, d: Decision): (r: Lock)
    ensures r.current == d.action && r.unlockTime == d.unlockTime
  {
    Lock(d.action, d.unlockTime)
  }

  /** One frame of the lock followed by the commit. */
  function Tick(l: Lock, physical: Action, now: real, minDurations: map<Action, real>): (r: Lock)
    ensures Locked(l, now) ==> r == l
    ensures !Locked(l, now) ==> r.current == physical
    ensures r.current == Neutre ==> r.unlockTime == l.unlockTime
  {
    Commit(l, Resolve(l, physical, now, minDurations))
  }

  /** A non-neutral action, once announced at time t, is held for its full
      minimum duration: every frame before t + duration returns it,
      whatever the physical action of that frame. */
  lemma HoldsMinimumDuration(l: Lock, a: Action, t: real, minDurations: map<Action, real>,
                             physical: Action, later: real)
    requires !Locked(l, t) && a != Neutre && a != l.current
    requires later < t + Duration(minDurations, a)
    ensures Resolve(Tick(l, a, t, minDurations), physical, later, minDurations).action == a
  {
  }

  /** Holding is all-or-nothing: a lock that has expired answers the
      physical action at once. */
  lemma ExpiredFollows(l: Lock, physical: Action, now: real, minDurations: map<Action, real>)
    requires l.unlockTime <= now
    ensures Resolve(l, physical, now, minDurations).action == physical
  {
  }

  /** Entering NEUTRE never delays anything: from NEUTRE, whatever the
      unlock time left behind, the next physical action is returned at once. */
  lemma NeutralNeverLocks(u: real, physical: Action, now: real, minDurations: map<Action, real>)
    ensures Resolve(Lock(Neutre, u), physical, now, minDurations).action == physical
    ensures physical == Neutre ==> Resolve(Lock(Neutre, u), physical, now, minDurations).unlockTime == u
  {
  }

  /** A run of frames: the lock state after each (physical, time) pair. */
  function Replay(l: Lock, frames: seq<(Action, real)>, minDurations: map<Action, real>): Lock
    decreases |frames|
  {
    if frames == [] then l
    else Replay(Tick(l, frames[0].0, frames[0].1, minDurations), frames[1..], minDurations)
  }

  /** While the lock is held, no sequence of frames before the unlock time
      can change the announced action. */
  lemma {:induction false} HeldThroughout(l: Lock, frames: seq<(Action, real)>, minDurations: map<Action, real>)
    requires l.current != Neutre
    requires forall i :: 0 <= i < |frames| ==> frames[i].1 < l.unlockTime
    ensures Replay(l, frames, minDurations) == l
    decreases |frames|
  {
    if frames != [] {
      var next := Tick(l, frames[0].0, frames[0].1, minDurations);
      assert next == l;
      assert forall i :: 0 <= i < |frames[1..]| ==> frames[1..][i] == frames[i + 1];
      HeldThroughout(l, frames[1..], minDurations);
    }
  }

  /** The hold scenario from start-up with SOURIRE held for 1.0: SOURIRE at
      time 0 is announced, is still returned at 0.5 when the face is
      neutral again, and gives way to NEUTRE at 1.0. */
  lemma SmileHeldOneSecond()
    ensures var durations := map[Sourire := 1.0];
            var d0 := Resolve(Initial, Sourire, 0.0, durations);
            var l1 := Commit(Initial, d0);
            var d1 := Resolve(l1, Neutre, 0.5, durations);
            var l2 := Commit(l1, d1);
            var d2 := Resolve(l2, Neutre, 1.0, durations);
            d0 == Decision(Sourire, 1.0) && d1 == Decision(Sourire, 1.0) && d2 == Decision(Neutre, 1.0)
  {
  }
}
