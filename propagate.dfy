/** The propagation driver: visits every record once, front to back or back to
    front, and hands each pass the record together with the facts of the record
    visited just before it (`{}` for the first one visited). */
module Propagation {
  import opened GCode

  /** One pass over one record: the record's new state, computed from the
      record and the facts of the previously visited record. A pass may demand
      something of its inputs (the script raises an exception otherwise). */
  type Step = (Command, Facts) --> Command

  /** The facts of the last record of `done`, or the empty facts when there is
      none. */
  function LastFacts(done: seq<Command>): Facts {
    if |done| == 0 then NoFacts else done[|done| - 1].facts
  }

  /** `step` can be applied to every record of `s`, visited in order, each time
      with the facts the previous application produced. */
  ghost predicate Runs(s: seq<Command>, step: Step)
    decreases |s|, 0
  {
    || |s| == 0
    || (Runs(s[..|s| - 1], step) && step.requires(s[|s| - 1], LastFacts(Forward(s[..|s| - 1], step))))
  }

  /** The records of `s` after `step` has visited them in order. */
  function Forward(s: seq<Command>, step: Step): (r: seq<Command>)
    requires Runs(s, step)
    ensures |r| == |s|
    decreases |s|, 1
  {
    if |s| == 0 then []
    else
      var done := Forward(s[..|s| - 1], step);
      done + [step(s[|s| - 1], LastFacts(done))]
  }

  function Reversed(s: seq<Command>): (r: seq<Command>)
    ensures |r| == |s|
    ensures forall k :: 0 <= k < |s| ==> r[k] == s[|s| - 1 - k]
  {
    if |s| == 0 then [] else [s[|s| - 1]] + Reversed(s[..|s| - 1])
  }

  /** The records in the order the driver visits them. */
  function InOrder(s: seq<Command>, reverse: bool): seq<Command> {
    if reverse then Reversed(s) else s
  }

  lemma InOrderInvolution(s: seq<Command>, reverse: bool)
    ensures InOrder(InOrder(s, reverse), reverse) == s
  {
    if reverse {
      assert Reversed(Reversed(s)) == s;
    }
  }

  /** The records, in document order, after a pass visited them in the given
      direction. */
  ghost function Propagated(s: seq<Command>, step: Step, reverse: bool): (r: seq<Command>)
    requires Runs(InOrder(s, reverse), step)
    ensures |r| == |s|
  {
    InOrder(Forward(InOrder(s, reverse), step), reverse)
  }

  /** The facts the record at `i` of `r` received as "previous facts": those of
      its neighbour on the side the driver came from, or `{}` for the first
      record visited. */
  function Neighbour(r: seq<Command>, i: int, reverse: bool): Facts
    requires 0 <= i < |r|
  {
    if !reverse then (if i == 0 then NoFacts else r[i - 1].facts)
    else (if i == |r| - 1 then NoFacts else r[i + 1].facts)
  }

  lemma {:induction false} RunsPrefix(s: seq<Command>, step: Step, k: nat)
    requires Runs(s, step) && k <= |s|
    ensures Runs(s[..k], step)
    decreases |s|
  {
    if k < |s| {
      assert s[..|s| - 1][..k] == s[..k];
      RunsPrefix(s[..|s| - 1], step, k);
    } else {
      assert s[..k] == s;
    }
  }

  lemma {:induction false} ForwardPrefix(s: seq<Command>, step: Step, k: nat)
    requires Runs(s, step) && k <= |s|
    ensures Runs(s[..k], step)
    ensures Forward(s, step)[..k] == Forward(s[..k], step)
    decreases |s|
  {
    RunsPrefix(s, step, k);
    if k < |s| {
      assert s[..|s| - 1][..k] == s[..k];
      ForwardPrefix(s[..|s| - 1], step, k);
      assert Forward(s, step)[..|s| - 1] == Forward(s[..|s| - 1], step);
    } else {
      assert s[..k] == s;
    }
  }

  /** The m-th record visited is the pass applied to it and to the facts of
      the record visited before it, or to `{}` when it is visited first. */
  lemma ForwardAt(s: seq<Command>, step: Step, m: nat)
    requires Runs(s, step) && m < |s|
    ensures step.requires(s[m], if m == 0 then NoFacts else Forward(s, step)[m - 1].facts)
    ensures Forward(s, step)[m] == step(s[m], if m == 0 then NoFacts else Forward(s, step)[m - 1].facts)
  {
    ForwardPrefix(s, step, m + 1);
    ForwardPrefix(s, step, m);
    var t := s[..m + 1];
    assert t[..|t| - 1] == s[..m];
    var done := Forward(s[..m], step);
    assert Forward(t, step) == done + [step(s[m], LastFacts(done))];
    assert Forward(s, step)[m] == Forward(t, step)[m];
    if m > 0 {
      assert Forward(s, step)[m - 1] == Forward(s, step)[..m][m - 1];
    }
  }

  /** The driver's contract, in document order: every record is the pass
      applied exactly once to it and to the facts of its already-visited
      neighbour (the one before it going forward, the one after it going
      backward), the first record visited getting `{}`. */
  lemma PropagatedAt(s: seq<Command>, step: Step, reverse: bool, i: nat)
    requires Runs(InOrder(s, reverse), step) && i < |s|
    ensures step.requires(s[i], Neighbour(Propagated(s, step, reverse), i, reverse))
    ensures Propagated(s, step, reverse)[i] == step(s[i], Neighbour(Propagated(s, step, reverse), i, reverse))
  {
    var v := InOrder(s, reverse);
    var m := if reverse then |s| - 1 - i else i;
    ForwardAt(v, step, m);
  }

  /** A pass that only demands something of the record itself can visit any
      sequence of records for which that demand holds. */
  lemma {:induction false} RunsLocal(s: seq<Command>, step: Step)
    requires forall k, p :: 0 <= k < |s| ==> step.requires(s[k], p)
    ensures Runs(s, step)
    decreases |s|
  {
    if |s| > 0 {
      RunsLocal(s[..|s| - 1], step);
    }
  }

  /** Visiting one more record appends the pass's result on it. */
  lemma ForwardSnoc(s: seq<Command>, step: Step, m: nat)
    requires Runs(s, step) && m < |s|
    ensures Runs(s[..m + 1], step) && Runs(s[..m], step)
    ensures step.requires(s[m], LastFacts(Forward(s[..m], step)))
    ensures Forward(s[..m + 1], step) == Forward(s[..m], step) + [step(s[m], LastFacts(Forward(s[..m], step)))]
  {
    RunsPrefix(s, step, m + 1);
    RunsPrefix(s, step, m);
    var t := s[..m + 1];
    assert t[..|t| - 1] == s[..m];
  }

  /** Position in the array of the m-th record visited. */
  function Slot(n: nat, m: nat, reverse: bool): nat
    requires m < n
  {
    if reverse then n - 1 - m else m
  }

  /** One more visit: the pass can be applied to the next record and the
      facts of the last visited one, and its result extends the visited part. */
  lemma StepAt(s: seq<Command>, step: Step, m: nat, done: seq<Command>)
    requires Runs(s, step) && m < |s| && Runs(s[..m], step) && done == Forward(s[..m], step)
    ensures step.requires(s[m], LastFacts(done))
  {
    ForwardSnoc(s, step, m);
  }

  lemma StepDone(s: seq<Command>, step: Step, m: nat, done: seq<Command>, x: Command)
    requires Runs(s, step) && m < |s| && Runs(s[..m], step) && done == Forward(s[..m], step)
    requires step.requires(s[m], LastFacts(done)) && x == step(s[m], LastFacts(done))
    ensures Runs(s[..m + 1], step) && Forward(s[..m + 1], step) == done + [x]
  {
    ForwardSnoc(s, step, m);
  }

  /** Updating the record in the slot of the m-th visit updates the m-th
      record in visiting order. */
  lemma InOrderUpdate(b: seq<Command>, m: nat, x: Command, reverse: bool)
    requires m < |b|
    ensures InOrder(b, reverse)[m] == b[Slot(|b|, m, reverse)]
    ensures InOrder(b[Slot(|b|, m, reverse) := x], reverse) == InOrder(b, reverse)[m := x]
  {
    if reverse {
      var n := |b|;
      var b' := b[n - 1 - m := x];
      forall k | 0 <= k < n
        ensures Reversed(b')[k] == Reversed(b)[m := x][k]
      {
        assert Reversed(b')[k] == b'[n - 1 - k];
      }
    }
  }

  /** After m visits: the visited records, in visiting order, are the pass's
      results, and the rest of the records are untouched. */
  ghost predicate Visited(r: seq<Command>, s: seq<Command>, step: Step, reverse: bool, m: nat, done: seq<Command>)
  {
    && m <= |s| == |r| && Runs(s, step)
    && Runs(s[..m], step) && done == Forward(s[..m], step)
    && InOrder(r, reverse) == done + s[m..]
  }

  /** Once every record is visited, the records are the pass's results. */
  lemma AllVisited(r: seq<Command>, s: seq<Command>, step: Step, reverse: bool, done: seq<Command>)
    requires Visited(r, s, step, reverse, |s|, done)
    ensures r == InOrder(Forward(s, step), reverse)
  {
    assert s[..|s|] == s;
    InOrderInvolution(r, reverse);
  }

  /** One iteration of the driver's loop: the pass visits the m-th record in
      visiting order, in its array slot. */
  method Visit(a: array<Command>, step: Step, reverse: bool, m: nat, prev: Facts, ghost s: seq<Command>, ghost done: seq<Command>)
    returns (prev': Facts, ghost done': seq<Command>)
    requires Visited(a[..], s, step, reverse, m, done) && m < a.Length && prev == LastFacts(done)
    modifies a
    ensures Visited(a[..], s, step, reverse, m + 1, done') && prev' == LastFacts(done')
  {
    var i := Slot(a.Length, m, reverse);
    ghost var b := a[..];
    StepAt(s, step, m, done);
    InOrderUpdate(b, m, a[i], reverse);
    var x := step(a[i], prev);
    StepDone(s, step, m, done, x);
    InOrderUpdate(b, m, x, reverse);
    assert (done + s[m..])[m := x] == (done + [x]) + s[m + 1..];
    a[i] := x;
    assert a[..] == b[i := x];
    done' := done + [x];
    prev' := x.facts;
  }

  /** Runs `step` over the records of `a` in the given direction, updating each
      record in place: `propagate(callback, reverse)`. */
  method Propagate(a: array<Command>, step: Step, reverse: bool)
    requires Runs(InOrder(a[..], reverse), step)
    modifies a
    ensures a[..] == Propagated(old(a[..]), step, reverse)
  {
    ghost var s := InOrder(a[..], reverse);
    ghost var done: seq<Command> := [];
    var prev := NoFacts;
    var m := 0;
    while m < a.Length
      invariant m <= a.Length && Visited(a[..], s, step, reverse, m, done) && prev == LastFacts(done)
    {
      prev, done := Visit(a, step, reverse, m, prev, s, done);
      m := m + 1;
    }
    AllVisited(a[..], s, step, reverse, done);
  }
}
