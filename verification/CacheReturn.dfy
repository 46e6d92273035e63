/** A run in which the entry of a failed invocation is served by the next process: the
    cache is closed between the commit of the invocation and its failure. */
module CacheReturn {
  import opened Common
  import opened CacheKeys
  import opened StagedPath
  import opened CacheHistory
  import opened CacheDrift
  import L2 = ConditionCache

  /** After the first three steps of the run that `CacheDrift` begins with. */
  function ClosedBeforeRollback(d: Deployment): seq<Op> {
    Misled(d)[..3] + [
      CommitL2(0, L2Puts, (k: nat) => false, [], L2Deletes),
      CloseL2(false, L2.Written),
      Fail(0),
      Unwind(0, L2Deletes(0)),
      Unwind(0, L2Deletes(0))
    ]
  }

  function Left(d: Deployment, p: Policy): ConditionKey {
    KeyForParent(Key([0], d, p), VideoFeature, p)
  }

  function Stored(d: Deployment, p: Policy): L2.State {
    Nothing.l2.(store := map[Left(d, p) := L2.Entry([0], [0], 0, 0)])
  }

  function AndClosed(d: Deployment, p: Policy): L2.State {
    L2.Close(Stored(d, p), false, L2.Written)
  }

  /** Invocation 0 still lists `listed`. */
  predicate Listing(w: World, s: L2.State, listed: seq<ConditionKey>) {
    w.l2 == s && 0 in w.invs && w.invs[0].l2.Some? && w.invs[0].l2.value.newlyStored == listed
  }

  lemma Puts(d: Deployment, p: Policy)
    ensures L2.CommitPuts(Nothing.l2, 0, [], Offered(d, p), L2Puts, (k: nat) => false, 0) == (Stored(d, p), [Left(d, p)], false)
  {
    var pending := Offered(d, p);
    assert pending[1..] == [] && [] + [Left(d, p)] == [Left(d, p)];
    assert Nothing.l2.store[Left(d, p) := L2.Entry([0], [0], 0, 0)] - {} == Stored(d, p).store;
    assert L2.SafePut(Nothing.l2, pending[0].0, pending[0].1, 0, L2Puts(0)) == (Stored(d, p), L2.Stored);
    assert L2.CommitPuts(Stored(d, p), 0, [Left(d, p)], pending[1..], L2Puts, (k: nat) => false, 1)
           == (Stored(d, p), [Left(d, p)], false);
  }

  lemma Commits(w: World, w': World, d: Deployment, p: Policy)
    requires Alone(w, Nothing.l1) && w.invs[0].phase.Executed? && Carries(w.invs[0], d, p)
    requires w.invs[0].l2.value.pending == Offered(d, p)
    requires w' == Step(w, Telltale(Clip([0])), p, ClosedBeforeRollback(d)[3])
    ensures Listing(w', Stored(d, p), [Left(d, p)]) && w'.invs[0].phase.L2Committed?
  {
    var inv, op := w.invs[0], ClosedBeforeRollback(d)[3];
    assert inv.history + op.drift == inv.history;
    Puts(d, p);
    assert L2.CommitWrites(w.l2, 0, inv.l2.value.pending, op.puts, op.cancelled, true, op.deletes)
           == (Stored(d, p), [Left(d, p)], L2.Committed);
  }

  lemma ClosesAndFails(w: World, w1: World, w2: World, d: Deployment, p: Policy)
    requires Listing(w, Stored(d, p), [Left(d, p)]) && w.invs[0].phase.L2Committed?
    requires w1 == Step(w, Telltale(Clip([0])), p, ClosedBeforeRollback(d)[4])
    requires w2 == Step(w1, Telltale(Clip([0])), p, ClosedBeforeRollback(d)[5])
    ensures Listing(w2, AndClosed(d, p), [Left(d, p)]) && w2.invs[0].phase.Unwinding?
  {
  }

  lemma Unwinds(w: World, w1: World, w2: World, d: Deployment, p: Policy)
    requires Listing(w, AndClosed(d, p), [Left(d, p)]) && w.invs[0].phase.Unwinding?
    requires w1 == Step(w, Telltale(Clip([0])), p, ClosedBeforeRollback(d)[6])
    requires w2 == Step(w1, Telltale(Clip([0])), p, ClosedBeforeRollback(d)[7])
    ensures Listing(w2, AndClosed(d, p), []) && w2.invs[0].phase.Failed?
  {
    assert [Left(d, p)][..0] == [];
  }

  ghost function Then(d: Deployment, p: Policy, k: nat): World
    requires k <= 8
  {
    After(Nothing, Telltale(Clip([0])), p, ClosedBeforeRollback(d)[..k])
  }

  lemma ThenNext(d: Deployment, p: Policy, k: nat)
    requires k < 8
    ensures Then(d, p, k + 1) == Step(Then(d, p, k), Telltale(Clip([0])), p, ClosedBeforeRollback(d)[k])
  {
    assert ClosedBeforeRollback(d)[..k + 1][..k] == ClosedBeforeRollback(d)[..k];
  }

  lemma ReachesStored(d: Deployment, p: Policy)
    ensures Listing(Then(d, p, 4), Stored(d, p), [Left(d, p)]) && Then(d, p, 4).invs[0].phase.L2Committed?
  {
    assert ClosedBeforeRollback(d)[..3] == Misled(d)[..3];
    ReachesFirstBegin(d, p);
    AtNext(d, p, 2);
    FirstExecutes(At(d, p, 2), At(d, p, 3), d, p);
    assert Then(d, p, 3) == At(d, p, 3);
    ThenNext(d, p, 3);
    Commits(Then(d, p, 3), Then(d, p, 4), d, p);
  }

  lemma ReachesFailure(d: Deployment, p: Policy)
    ensures Listing(Then(d, p, 8), AndClosed(d, p), []) && Then(d, p, 8).invs[0].phase.Failed?
  {
    ReachesStored(d, p);
    ThenNext(d, p, 4);
    ThenNext(d, p, 5);
    ClosesAndFails(Then(d, p, 4), Then(d, p, 5), Then(d, p, 6), d, p);
    ThenNext(d, p, 6);
    ThenNext(d, p, 7);
    Unwinds(Then(d, p, 6), Then(d, p, 7), Then(d, p, 8), d, p);
  }

  /** With an honest store and no call that raises, invocation 0 has failed and been rolled
      back, nothing of it is readable, and the next process serves its entry. */
  lemma FailedEntryReturns(d: Deployment, p: Policy)
    ensures Initial(Nothing) && forall k: nat, key :: L2.Honest(L2Puts(k), key)
    ensures var w := After(Nothing, Telltale(Clip([0])), p, ClosedBeforeRollback(d));
            && 0 in w.invs && w.invs[0].phase.Failed?
            && Left(d, p) in w.l2.store && w.l2.store[Left(d, p)].writer == 0
            && !L2.Readable(w.l2, Left(d, p)) && L2.Readable(StepRestart(w).l2, Left(d, p))
  {
    assert Nothing.l2 == L2.Restart(Nothing.l2);
    ReachesFailure(d, p);
    assert ClosedBeforeRollback(d)[..8] == ClosedBeforeRollback(d);
  }
}
