/**
 * Runs of an iterated process: a start value, one step per round, and a
 * value recorded per round. The step and the record function are named
 * functions that take the run's fixed configuration `cfg` as an argument.
 * Nothing here knows what a step computes, so the facts proved are the ones
 * every training loop shares: the k-th state is the start stepped k times, a
 * run is determined by its start, and round k of a record is what round k's
 * states give.
 */
module Runs {

  /** `start` after n rounds; round k applies step(cfg, k, ·). */
  function Iterate<C, T>(step: (C, nat, T) -> T, cfg: C, start: T, n: nat): T {
    if n == 0 then start else step(cfg, n - 1, Iterate(step, cfg, start, n - 1))
  }

  /** A property every step keeps holds of the start stepped any number of times. */
  lemma {:induction false} IterateKeeps<C, T>(step: (C, nat, T) -> T, cfg: C, start: T, n: nat, inv: T -> bool)
    requires inv(start)
    requires forall k: nat, t: T :: inv(t) ==> inv(step(cfg, k, t))
    ensures inv(Iterate(step, cfg, start, n))
  {
    if n > 0 {
      IterateKeeps(step, cfg, start, n - 1, inv);
    }
  }

  /** Each state after the first is the previous state stepped once, round k leading to states[k + 1]. */
  ghost predicate IsRun<C, T>(states: seq<T>, step: (C, nat, T) -> T, cfg: C) {
    && |states| > 0
    && forall k: nat {:trigger step(cfg, k, states[k])} :: k < |states| - 1 ==> states[k + 1] == step(cfg, k, states[k])
  }

  /** One value per round, round k's value being f(cfg, k, states[k], states[k + 1]). */
  ghost predicate Records<C, T, R>(values: seq<R>, states: seq<T>, f: (C, nat, T, T) -> R, cfg: C) {
    && |values| + 1 == |states|
    && forall k: nat {:trigger f(cfg, k, states[k], states[k + 1])} :: k < |values| ==>
         values[k] == f(cfg, k, states[k], states[k + 1])
  }

  /** One more round on the last state extends a run. */
  lemma ExtendRun<C, T>(states: seq<T>, next: T, step: (C, nat, T) -> T, cfg: C)
    requires IsRun(states, step, cfg)
    requires next == step(cfg, |states| - 1, states[|states| - 1])
    ensures IsRun(states + [next], step, cfg)
  {
    var longer := states + [next];
    forall k: nat | k < |longer| - 1
      ensures longer[k + 1] == step(cfg, k, longer[k])
    {
      assert longer[k] == states[k];
    }
  }

  /** Recording the value of the round that extended a run. */
  lemma ExtendRecords<C, T, R>(values: seq<R>, states: seq<T>, next: T, v: R, f: (C, nat, T, T) -> R, cfg: C)
    requires Records(values, states, f, cfg)
    requires v == f(cfg, |values|, states[|values|], next)
    ensures Records(values + [v], states + [next], f, cfg)
  {
    var longer := states + [next];
    forall k: nat | k < |values| + 1
      ensures (values + [v])[k] == f(cfg, k, longer[k], longer[k + 1])
    {
      assert longer[k] == states[k];
      if k < |values| {
        assert longer[k + 1] == states[k + 1];
      }
    }
  }

  /** The k-th state of a run is its first state after k rounds. */
  lemma {:induction false} RunIsIterate<C, T>(states: seq<T>, step: (C, nat, T) -> T, cfg: C, k: nat)
    requires IsRun(states, step, cfg) && k < |states|
    ensures states[k] == Iterate(step, cfg, states[0], k)
  {
    if k > 0 {
      RunIsIterate(states, step, cfg, k - 1);
      assert states[k - 1 + 1] == step(cfg, k - 1, states[k - 1]);
    }
  }

  /** Two runs of the same step from the same start and of the same length are the same run. */
  lemma RunDetermined<C, T>(a: seq<T>, b: seq<T>, step: (C, nat, T) -> T, cfg: C)
    requires IsRun(a, step, cfg) && IsRun(b, step, cfg)
    requires |a| == |b| && a[0] == b[0]
    ensures a == b
  {
    forall k | 0 <= k < |a|
      ensures a[k] == b[k]
    {
      RunIsIterate(a, step, cfg, k);
      RunIsIterate(b, step, cfg, k);
    }
  }

  /** Round k's recorded value. */
  lemma RecordAt<C, T, R>(values: seq<R>, states: seq<T>, f: (C, nat, T, T) -> R, cfg: C, k: nat)
    requires Records(values, states, f, cfg) && k < |values|
    ensures values[k] == f(cfg, k, states[k], states[k + 1])
  {
  }

  /** A record is determined by its run: the same run gives the same values. */
  lemma RecordsDetermined<C, T, R>(v: seq<R>, w: seq<R>, states: seq<T>, f: (C, nat, T, T) -> R, cfg: C)
    requires Records(v, states, f, cfg) && Records(w, states, f, cfg)
    ensures v == w
  {
    forall k | 0 <= k < |v|
      ensures v[k] == w[k]
    {
      RecordAt(v, states, f, cfg, k);
      RecordAt(w, states, f, cfg, k);
    }
  }
}
