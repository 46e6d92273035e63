/** A run of two threads of one attempt that leaves an object behind which no sweep
    removes: one thread publishes, finalizes and cleans up while the other still holds the
    reserved record; then the other writes its object. */
module PublicationLeftover {
  import opened Common
  import opened Table = Ledger
  import opened PublicationRuns

  const Output: Spec := Spec(OutputKind, 10, None, None)
  const Slow: Agent := 0
  const Fast: Agent := 1
  const Content: Bytes := [7]

  /** Everything that changes during the run. */
  function At(rows: map<PublicationId, Row>, current: set<Lease>, attempts: map<PublicationId, Bytes>, canonical: set<Bytes>,
              minted: set<PublicationId>, workers: map<Agent, Worker>): World {
    World(Ledger(rows, current, map[1 := {OutputKind}], 0), attempts, canonical, minted, {1}, workers, map[])
  }

  const Start: World := World(Ledger(map[], {}, map[], 0), map[], {}, {}, {}, map[], map[])

  function RowAt(state: RowState, version: nat): Row {
    Row(1, Output, state, version, if state.Reserved? then None else Some(Content), None,
        if state.Finalized? then Some(0) else None, false, 0)
  }

  function Thread(pc: Pc): Worker {
    Worker(1, [Output], [], pc)
  }

  function Race(): seq<Op> {
    [StartLease(1, {OutputKind}), StartWorker(Slow, 1, [Output]), StartWorker(Fast, 1, [Output]),
     ReserveOrFinalize(Slow, 10), ReserveOrFinalize(Fast, 11),
     Write(Fast, Content), RecordWritten(Fast), Validate(Fast), Promote(Fast), RecordPromoted(Fast), Verify(Fast),
     ReserveOrFinalize(Fast, 12), CleanDelete(Fast), CleanRecord(Fast),
     Write(Slow, Content)]
  }

  function Both(fast: Pc): map<Agent, Worker> {
    map[Slow := Thread(Writing(10, 0)), Fast := Thread(fast)]
  }

  function Ending(pc: Pc): map<Agent, Worker> {
    map[Slow := Thread(Writing(10, 0)), Fast := Worker(1, [], [Ref(10, 2)], pc)]
  }

  lemma Begins(accepts: Bytes -> bool)
    ensures var w1 := Step(Start, accepts, Race()[0]);
            var w2 := Step(w1, accepts, Race()[1]);
            w1 == At(map[], {1}, map[], {}, {}, map[]) && w2 == At(map[], {1}, map[], {}, {}, map[Slow := Thread(Reserving)])
  {
    assert {} + {1} == {1};
  }

  lemma BothStart(accepts: Bytes -> bool)
    ensures Step(At(map[], {1}, map[], {}, {}, map[Slow := Thread(Reserving)]), accepts, Race()[2])
            == At(map[], {1}, map[], {}, {}, map[Slow := Thread(Reserving), Fast := Thread(Reserving)])
  {
  }

  lemma SlowReserves(accepts: Bytes -> bool)
    ensures Step(At(map[], {1}, map[], {}, {}, map[Slow := Thread(Reserving), Fast := Thread(Reserving)]), accepts, Race()[3])
            == At(map[10 := RowAt(Reserved, 0)], {1}, map[], {}, {10}, map[Slow := Thread(Writing(10, 0)), Fast := Thread(Reserving)])
  {
    assert {} + {10} == {10};
  }

  lemma FastFindsReservation(accepts: Bytes -> bool)
    ensures Step(At(map[10 := RowAt(Reserved, 0)], {1}, map[], {}, {10}, map[Slow := Thread(Writing(10, 0)), Fast := Thread(Reserving)]),
                 accepts, Race()[4])
            == At(map[10 := RowAt(Reserved, 0)], {1}, map[], {}, {10, 11}, Both(Writing(10, 0)))
  {
    var db := Ledger(map[10 := RowAt(Reserved, 0)], {1}, map[1 := {OutputKind}], 0);
    assert ReservedAs(db, 10, 1, OutputKind);
    assert {10} + {11} == {10, 11};
  }

  lemma FastWrites(accepts: Bytes -> bool)
    ensures Step(At(map[10 := RowAt(Reserved, 0)], {1}, map[], {}, {10, 11}, Both(Writing(10, 0))), accepts, Race()[5])
            == At(map[10 := RowAt(Reserved, 0)], {1}, map[10 := Content], {}, {10, 11}, Both(Written(10, 0, Content)))
    ensures Step(At(map[10 := RowAt(Reserved, 0)], {1}, map[10 := Content], {}, {10, 11}, Both(Written(10, 0, Content))), accepts, Race()[6])
            == At(map[10 := RowAt(ObjectWritten, 1)], {1}, map[10 := Content], {}, {10, 11}, Both(Validating(10, 1, Content)))
  {
  }

  lemma FastPromotes(accepts: Bytes -> bool)
    requires accepts(Content)
    ensures Step(At(map[10 := RowAt(ObjectWritten, 1)], {1}, map[10 := Content], {}, {10, 11}, Both(Validating(10, 1, Content))), accepts, Race()[7])
            == At(map[10 := RowAt(ObjectWritten, 1)], {1}, map[10 := Content], {}, {10, 11}, Both(Promoting(10, 1, Content)))
    ensures Step(At(map[10 := RowAt(ObjectWritten, 1)], {1}, map[10 := Content], {}, {10, 11}, Both(Promoting(10, 1, Content))), accepts, Race()[8])
            == At(map[10 := RowAt(ObjectWritten, 1)], {1}, map[10 := Content], {Content}, {10, 11}, Both(Promoted(10, 1, Content)))
  {
    assert {} + {Content} == {Content};
  }

  lemma FastVerifies(accepts: Bytes -> bool)
    ensures Step(At(map[10 := RowAt(ObjectWritten, 1)], {1}, map[10 := Content], {Content}, {10, 11}, Both(Promoted(10, 1, Content))), accepts, Race()[9])
            == At(map[10 := RowAt(Validated, 2)], {1}, map[10 := Content], {Content}, {10, 11}, Both(Verifying(10, 2, Content)))
    ensures Step(At(map[10 := RowAt(Validated, 2)], {1}, map[10 := Content], {Content}, {10, 11}, Both(Verifying(10, 2, Content))), accepts, Race()[10])
            == At(map[10 := RowAt(Validated, 2)], {1}, map[10 := Content], {Content}, {10, 11}, Ending(Reserving))
  {
    assert [Output][1..] == [] && [] + [Ref(10, 2)] == [Ref(10, 2)];
  }

  lemma FastFinalizes(accepts: Bytes -> bool)
    ensures Step(At(map[10 := RowAt(Validated, 2)], {1}, map[10 := Content], {Content}, {10, 11}, Ending(Reserving)), accepts, Race()[11])
            == At(map[10 := RowAt(Finalized, 3)], {}, map[10 := Content], {Content}, {10, 11}, Ending(Cleaning(0)))
  {
    var db := Ledger(map[10 := RowAt(Validated, 2)], {1}, map[1 := {OutputKind}], 0);
    var refs := [Ref(10, 2)];
    assert (set k | 0 <= k < |refs| && refs[k].id in db.rows :: db.rows[refs[k].id].spec.kind) == {OutputKind} by {
      assert db.rows[refs[0].id].spec.kind == OutputKind;
    }
    assert refs[0].id in Ids(refs);
    assert Finalizable(db, 1, refs);
    assert {1} - {1} == {};
    assert Finalize(db, 1, refs).value.rows == map[10 := RowAt(Finalized, 3)];
  }

  lemma FastCleansSlowWrites(accepts: Bytes -> bool)
    ensures var clean := RowAt(Finalized, 3).(version := 4, cleaned := true);
            && Step(At(map[10 := RowAt(Finalized, 3)], {}, map[10 := Content], {Content}, {10, 11}, Ending(Cleaning(0))), accepts, Race()[12])
               == At(map[10 := RowAt(Finalized, 3)], {}, map[], {Content}, {10, 11}, Ending(Cleaned(0)))
            && Step(At(map[10 := RowAt(Finalized, 3)], {}, map[], {Content}, {10, 11}, Ending(Cleaned(0))), accepts, Race()[13])
               == At(map[10 := clean], {}, map[], {Content}, {10, 11}, Ending(Cleaning(1)))
            && Step(At(map[10 := clean], {}, map[], {Content}, {10, 11}, Ending(Cleaning(1))), accepts, Race()[14]).attempts
               == map[10 := Content]
            && Step(At(map[10 := clean], {}, map[], {Content}, {10, 11}, Ending(Cleaning(1))), accepts, Race()[14]).db.rows
               == map[10 := clean]
  {
    assert map[10 := Content] - {10} == map[];
  }

  ghost function Reached(accepts: Bytes -> bool, k: nat): World
    requires k <= |Race()|
  {
    After(Start, accepts, Race()[..k])
  }

  lemma Next(accepts: Bytes -> bool, k: nat)
    requires k < |Race()|
    ensures Reached(accepts, k + 1) == Step(Reached(accepts, k), accepts, Race()[k])
  {
    assert Race()[..k + 1][..k] == Race()[..k];
  }

  lemma ReachesReservation(accepts: Bytes -> bool)
    ensures Reached(accepts, 5) == At(map[10 := RowAt(Reserved, 0)], {1}, map[], {}, {10, 11}, Both(Writing(10, 0)))
  {
    assert Race()[..0] == [] && Reached(accepts, 0) == Start;
    Next(accepts, 0);
    Next(accepts, 1);
    Begins(accepts);
    Next(accepts, 2);
    BothStart(accepts);
    Next(accepts, 3);
    SlowReserves(accepts);
    Next(accepts, 4);
    FastFindsReservation(accepts);
  }

  lemma ReachesPromotion(accepts: Bytes -> bool)
    requires accepts(Content)
    ensures Reached(accepts, 9) == At(map[10 := RowAt(ObjectWritten, 1)], {1}, map[10 := Content], {Content}, {10, 11}, Both(Promoted(10, 1, Content)))
  {
    ReachesReservation(accepts);
    Next(accepts, 5);
    Next(accepts, 6);
    FastWrites(accepts);
    Next(accepts, 7);
    Next(accepts, 8);
    FastPromotes(accepts);
  }

  lemma ReachesFinalization(accepts: Bytes -> bool)
    requires accepts(Content)
    ensures Reached(accepts, 12) == At(map[10 := RowAt(Finalized, 3)], {}, map[10 := Content], {Content}, {10, 11}, Ending(Cleaning(0)))
  {
    ReachesPromotion(accepts);
    Next(accepts, 9);
    Next(accepts, 10);
    FastVerifies(accepts);
    Next(accepts, 11);
    FastFinalizes(accepts);
  }

  /** The run is possible from the empty world, and ends with an object under a record that
      is finalized and whose cleanup is recorded. */
  lemma LeftoverIsReachable(accepts: Bytes -> bool)
    requires accepts(Content)
    ensures Initial(Start)
    ensures var w := After(Start, accepts, Race());
            10 in w.attempts && 10 in w.db.rows && w.db.rows[10].state.Finalized? && w.db.rows[10].cleaned
  {
    ReachesFinalization(accepts);
    Next(accepts, 12);
    Next(accepts, 13);
    Next(accepts, 14);
    FastCleansSlowWrites(accepts);
    assert Race()[..15] == Race();
  }
}
