// Runs of a protocol: sequences of enabled atomic steps from a start state.
module Runs {

  datatype Machine<!S, !T> = Machine(enabled: (S, T) -> bool, next: (S, T) -> S)

  ghost function Exec<S, T>(m: Machine<S, T>, s: S, steps: seq<T>): S {
    if steps == [] then s else Exec(m, m.next(s, steps[0]), steps[1..])
  }

  ghost predicate Legal<S, T>(m: Machine<S, T>, s: S, steps: seq<T>) {
    steps == [] || (m.enabled(s, steps[0]) && Legal(m, m.next(s, steps[0]), steps[1..]))
  }

  lemma {:induction false} Append<S, T>(m: Machine<S, T>, s: S, xs: seq<T>, ys: seq<T>)
    ensures Exec(m, s, xs + ys) == Exec(m, Exec(m, s, xs), ys)
    ensures Legal(m, s, xs + ys) <==> Legal(m, s, xs) && Legal(m, Exec(m, s, xs), ys)
  {
    if xs == [] {
      assert xs + ys == ys;
    } else {
      assert (xs + ys)[0] == xs[0] && (xs + ys)[1..] == xs[1..] + ys;
      Append(m, m.next(s, xs[0]), xs[1..], ys);
    }
  }

  lemma NoSteps<S, T>(m: Machine<S, T>, s: S)
    ensures Legal(m, s, []) && Exec(m, s, []) == s
  {
  }

  // One more step at the end of a run.
  lemma Extend<S, T>(m: Machine<S, T>, s: S, steps: seq<T>, t: T)
    requires Legal(m, s, steps) && m.enabled(Exec(m, s, steps), t)
    ensures Legal(m, s, steps + [t])
    ensures Exec(m, s, steps + [t]) == m.next(Exec(m, s, steps), t)
  {
    Append(m, s, steps, [t]);
  }

  // One more step at the start of a run.
  lemma Prepend<S, T>(m: Machine<S, T>, s: S, t: T, steps: seq<T>)
    requires m.enabled(s, t) && Legal(m, m.next(s, t), steps)
    ensures Legal(m, s, [t] + steps)
    ensures Exec(m, s, [t] + steps) == Exec(m, m.next(s, t), steps)
  {
    assert ([t] + steps)[1..] == steps;
  }

  // A run given by the states it goes through.
  lemma {:induction false} Trace<S, T>(m: Machine<S, T>, states: seq<S>, steps: seq<T>)
    requires |states| == |steps| + 1
    requires forall i | 0 <= i < |steps| :: m.enabled(states[i], steps[i])
                && m.next(states[i], steps[i]) == states[i + 1]
    ensures Legal(m, states[0], steps) && Exec(m, states[0], steps) == states[|steps|]
  {
    if steps != [] {
      Trace(m, states[1..], steps[1..]);
    }
  }

  // What holds at the start and is kept by every enabled step holds at the end of every run.
  lemma {:induction false} Invariant<S(!new), T(!new)>(m: Machine<S, T>, inv: S -> bool, s: S, steps: seq<T>)
    requires forall a, t | inv(a) && m.enabled(a, t) :: inv(m.next(a, t))
    requires inv(s) && Legal(m, s, steps)
    ensures inv(Exec(m, s, steps))
  {
    if steps != [] {
      Invariant(m, inv, m.next(s, steps[0]), steps[1..]);
    }
  }

  // A reflexive and transitive relation kept by every step of a run relates its two ends.
  lemma {:induction false} Progress<S(!new), T(!new)>(m: Machine<S, T>, inv: S -> bool, rel: (S, S) -> bool,
                                                     s: S, steps: seq<T>)
    requires forall a, t | inv(a) && m.enabled(a, t) :: inv(m.next(a, t)) && rel(a, m.next(a, t))
    requires forall a :: rel(a, a)
    requires forall a, b, c | rel(a, b) && rel(b, c) :: rel(a, c)
    requires inv(s) && Legal(m, s, steps)
    ensures rel(s, Exec(m, s, steps)) && inv(Exec(m, s, steps))
  {
    if steps != [] {
      Progress(m, inv, rel, m.next(s, steps[0]), steps[1..]);
    }
  }

  // A run is its front and one more step.
  lemma Unsnoc<S, T>(m: Machine<S, T>, s: S, steps: seq<T>)
    requires steps != [] && Legal(m, s, steps)
    ensures var front, last := steps[..|steps| - 1], steps[|steps| - 1];
            && Legal(m, s, front) && m.enabled(Exec(m, s, front), last)
            && Exec(m, s, steps) == m.next(Exec(m, s, front), last)
  {
    var front, last := steps[..|steps| - 1], steps[|steps| - 1];
    assert steps == front + [last];
    Append(m, s, front, [last]);
  }

  // Some step of the run was of this kind, in the state it was taken in.
  ghost predicate Happened<S, T>(m: Machine<S, T>, s: S, steps: seq<T>, kind: (S, T) -> bool) {
    exists i | 0 <= i < |steps| :: kind(Exec(m, s, steps[..i]), steps[i])
  }

  lemma HappenedThen<S, T>(m: Machine<S, T>, s: S, steps: seq<T>, kind: (S, T) -> bool)
    requires steps != []
    ensures var front, last := steps[..|steps| - 1], steps[|steps| - 1];
            Happened(m, s, front, kind) || kind(Exec(m, s, front), last) ==> Happened(m, s, steps, kind)
  {
    var front, last := steps[..|steps| - 1], steps[|steps| - 1];
    if kind(Exec(m, s, front), last) {
      assert kind(Exec(m, s, steps[..|steps| - 1]), steps[|steps| - 1]);
    }
    if Happened(m, s, front, kind) {
      var i :| 0 <= i < |front| && kind(Exec(m, s, front[..i]), front[i]);
      assert front[..i] == steps[..i];
    }
  }
}
