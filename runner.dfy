/** The script's main block: after loading the store, the configuration and
    the token, `process` runs once per use case in the store's key order,
    each result (or 1 for an exception that escapes `process`) is added to
    `total_errors`, and the exit code is 0; a failure during the setup makes
    it 1. */
module Runner {
  import opened PyJson
  import opened Processing

  /** What one use case adds to `total_errors`. */
  function Cost(o: Outcome): (r: int)
    ensures r == 0 <==> o == Returned(0)
  {
    if o.Returned? then o.code else 1
  }

  /** `total_errors` after the given outcomes, in order. */
  function Total(outs: seq<Outcome>): (r: int)
    ensures WellFormed(outs) ==> 0 <= r <= |outs|
  {
    if |outs| == 0 then 0 else Total(outs[..|outs| - 1]) + Cost(outs[|outs| - 1])
  }

  /** The use cases that ended with a difference or an error. */
  function Failed(outs: seq<Outcome>): set<int> {
    set n | 0 <= n < |outs| && Cost(outs[n]) != 0
  }

  /** Every outcome is a return of 0 or 1, or an escaped exception. */
  predicate WellFormed(outs: seq<Outcome>) {
    forall n :: 0 <= n < |outs| && outs[n].Returned? ==> 0 <= outs[n].code <= 1
  }

  /** The loop of lines 141-150 over the use cases in `order`, each answered
      by the matching reference and version outcomes: the state after it and
      each use case's outcome. */
  function RunLoop(st: State, order: seq<string>, references: seq<ApiOutcome>, versions: seq<ApiOutcome>)
    : (r: (State, seq<Outcome>))
    requires |references| == |order| && |versions| == |order|
    ensures |r.1| == |order| && WellFormed(r.1)
    ensures r.0.entries.Keys == st.entries.Keys && Extends(st, r.0) && Reflects(st, r.0)
    ensures |r.0.calls| <= |st.calls| + 2 * |order|
    decreases |order|
  {
    if |order| == 0 then (st, [])
    else
      var last := |order| - 1;
      var (st', outs) := RunLoop(st, order[..last], references[..last], versions[..last]);
      var s := Processed(st', order[last], references[last], versions[last]);
      ReflectsTransitive(st, st', s.st);
      (s.st, outs + [s.outcome])
  }

  /** One more use case: the loop over the first `n + 1` use cases is the loop
      over the first `n`, followed by `process` on the next one. */
  lemma RunLoopExtend(st: State, order: seq<string>, references: seq<ApiOutcome>, versions: seq<ApiOutcome>, n: nat)
    requires |references| == |order| && |versions| == |order| && n < |order|
    ensures var (st', outs) := RunLoop(st, order[..n], references[..n], versions[..n]);
      var s := Processed(st', order[n], references[n], versions[n]);
      RunLoop(st, order[..n + 1], references[..n + 1], versions[..n + 1]) == (s.st, outs + [s.outcome])
  {
    assert order[..n + 1][..n] == order[..n];
    assert references[..n + 1][..n] == references[..n];
    assert versions[..n + 1][..n] == versions[..n];
  }

  /** `total_errors` counts the use cases that ended with a difference or an
      error, so it never exceeds the number of use cases. */
  lemma {:induction false} TotalCountsFailures(outs: seq<Outcome>)
    requires WellFormed(outs)
    ensures Total(outs) == |Failed(outs)| <= |outs|
    decreases |outs|
  {
    if |outs| > 0 {
      var last := |outs| - 1;
      var init := outs[..last];
      TotalCountsFailures(init);
      assert last !in Failed(init);
      if Cost(outs[last]) != 0 {
        assert Failed(outs) == Failed(init) + {last};
      } else {
        assert Failed(outs) == Failed(init);
      }
    }
  }

  /** The summary line says "no difference or error" exactly when every use
      case returned 0. */
  lemma {:induction false} TotalZeroIffAllClean(outs: seq<Outcome>)
    requires WellFormed(outs)
    ensures Total(outs) == 0 <==> forall n :: 0 <= n < |outs| ==> outs[n] == Returned(0)
    decreases |outs|
  {
    TotalCountsFailures(outs);
    if Total(outs) == 0 {
      forall n | 0 <= n < |outs| ensures outs[n] == Returned(0) {
        assert n !in Failed(outs);
      }
    } else {
      var n :| n in Failed(outs);
      assert outs[n] != Returned(0);
    }
  }

  /** Lines 139-150: `process` on each use case in `order`, with
      `references[n]` / `versions[n]` what the two servers answer for the n-th
      one, adding up `total_errors`. */
  method ProcessAll(store: UseCaseStore, order: seq<string>,
                    references: seq<ApiOutcome>, versions: seq<ApiOutcome>)
    returns (totalErrors: int)
    requires |references| == |order| && |versions| == |order|
    modifies store
    ensures var (st, outs) := RunLoop(old(store.Snapshot()), order, references, versions);
      store.Snapshot() == st && totalErrors == Total(outs) && totalErrors == |Failed(outs)|
    ensures Reflects(old(store.Snapshot()), store.Snapshot())
    ensures 0 <= totalErrors <= |order|
  {
    ghost var st0 := store.Snapshot();
    ghost var outs: seq<Outcome> := [];
    totalErrors := 0;
    var i := 0;
    while i < |order|
      invariant 0 <= i <= |order|
      invariant store.Snapshot() == RunLoop(st0, order[..i], references[..i], versions[..i]).0
      invariant outs == RunLoop(st0, order[..i], references[..i], versions[..i]).1
      invariant totalErrors == Total(outs)
    {
      RunLoopExtend(st0, order, references, versions, i);
      ghost var before := store.Snapshot();
      var outcome := store.Process(order[i], references[i], versions[i]);
      ghost var s := Processed(before, order[i], references[i], versions[i]);
      assert store.Snapshot() == s.st && outcome == s.outcome;
      assert Total(outs + [outcome]) == Total(outs) + Cost(outcome) by {
        assert (outs + [outcome])[..|outs|] == outs;
      }
      outs := outs + [outcome];
      totalErrors := totalErrors + Cost(outcome);
      i := i + 1;
    }
    assert order[..i] == order && references[..i] == references && versions[..i] == versions;
    TotalCountsFailures(outs);
  }

  /** Lines 128-161. `setupFailed` stands for an exception while reading the
      store file, the configuration or the token; `order` is the key order of
      the loaded store. */
  method Run(store: UseCaseStore, setupFailed: bool, order: seq<string>,
             references: seq<ApiOutcome>, versions: seq<ApiOutcome>)
    returns (totalErrors: int, exitCode: int)
    requires |references| == |order| && |versions| == |order|
    requires forall m, n :: 0 <= m < n < |order| ==> order[m] != order[n]
    requires (set n | 0 <= n < |order| :: order[n]) == store.entries.Keys
    modifies store
    ensures setupFailed ==> exitCode == 1 && totalErrors == 0 && store.Snapshot() == old(store.Snapshot())
    ensures !setupFailed ==>
      && exitCode == 0
      && var (st, outs) := RunLoop(old(store.Snapshot()), order, references, versions);
         store.Snapshot() == st && totalErrors == Total(outs) && totalErrors == |Failed(outs)|
    ensures Reflects(old(store.Snapshot()), store.Snapshot())
    ensures 0 <= totalErrors <= |order|
  {
    if setupFailed {
      return 0, 1;
    }
    totalErrors := ProcessAll(store, order, references, versions);
    exitCode := 0;
  }
}
