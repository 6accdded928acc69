/**
 When a session runs, over whole histories of the ledger: what it takes to have got there, and what would have ended it.
 */
module SessionRuns {
  import opened Options
  import opened SessionLedger
  import opened Latest

  /** The operation is done and its ledger stored. */
  ghost predicate Succeeds(l: Ledger, e: Event) {
    e.written && CanDo(l, e.op, e.now)
  }

  /** Stale sessions are given up and the ledger stored, whether or not the operation itself can then be done. */
  ghost predicate GivesUpStale(l: Ledger, e: Event) {
    && e.written && Readable(l) && !e.op.Open?
    && (Edits(e.op) ==>
          && !e.op.RequestStop? && !e.op.SetLinks? && (e.op.SetChangeRequests? ==> ValidProposals(e.op.proposals))
          && exists k :: 0 <= k < |l| && l[k].id == e.op.id)
  }

  ghost predicate RunsIn(l: Ledger, id: Id) {
    exists k :: 0 <= k < |l| && l[k].id == id && l[k].status == Running
  }

  ghost predicate StaleIn(l: Ledger, id: Id, now: int) {
    exists k :: 0 <= k < |l| && l[k].id == id && IsStale(l[k], now)
  }

  /** The session is launched as one that already runs, or its process is accepted. */
  ghost predicate Begins(l: Ledger, e: Event, id: Id) {
    Succeeds(l, e) && ((e.op.Launch? && e.op.id == id && e.op.status == Running) || e.op == AcceptProcess(id))
  }

  /** It is stopped, finished, failed or interrupted, given up as stale, or found without its process on opening. */
  ghost predicate Stops(l: Ledger, e: Event, id: Id) {
    || (Succeeds(l, e) && (e.op.RequestStop? || e.op.Finish? || e.op.Fail? || e.op.Interrupt?) && e.op.id == id)
    || (GivesUpStale(l, e) && StaleIn(l, id, e.now))
    || (e.op.Open? && e.written && Readable(l))
  }

  ghost predicate IdsUnique(l: Ledger) {
    forall i, j :: 0 <= i < j < |l| ==> l[i].id != l[j].id
  }

  function Next(l: Ledger, e: Event): Ledger {
    if e.written then After(l, e.op, e.now) else l
  }

  // ---------------------------------------------------------------- one event

  function Ids(l: Ledger): set<Id> {
    set s | s in l :: s.id
  }

  lemma SameIdSet(l: Ledger, l': Ledger)
    requires SameIds(l, l')
    ensures Ids(l') == Ids(l)
  {
    forall id ensures id in Ids(l') <==> id in Ids(l) {
      if id in Ids(l) {
        var k :| 0 <= k < |l| && l[k].id == id;
        assert l'[k] in l';
      }
      if id in Ids(l') {
        var k :| 0 <= k < |l'| && l'[k].id == id;
        assert l[k] in l;
      }
    }
  }

  predicate SameIds(l: Ledger, l': Ledger) {
    |l'| == |l| && forall k :: 0 <= k < |l| ==> l'[k].id == l[k].id
  }

  lemma SameIdsUnique(l: Ledger, l': Ledger)
    requires SameIds(l, l') && IdsUnique(l)
    ensures IdsUnique(l')
  {
  }

  lemma OneOfThem(l: Ledger, id: Id, now: int, k: nat)
    requires IdsUnique(l) && k < |l| && l[k].id == id
    ensures (RunsIn(l, id) <==> l[k].status == Running) && (StaleIn(l, id, now) <==> IsStale(l[k], now))
  {
    hide IsStale;
  }

  lemma NoneOfThem(l: Ledger, id: Id, now: int)
    requires forall k :: 0 <= k < |l| ==> l[k].id != id
    ensures !RunsIn(l, id) && !StaleIn(l, id, now)
  {
  }

  lemma StaleRuns(l: Ledger, l': Ledger, id: Id, now: int)
    requires AllStaleGivenUp(l, l', now) && IdsUnique(l)
    ensures SameIds(l, l') && IdsUnique(l') && (RunsIn(l', id) <==> RunsIn(l, id) && !StaleIn(l, id, now))
  {
    assert forall k :: 0 <= k < |l| ==> StaleGivenUp(l[k], l'[k], now);
    SameIdsUnique(l, l');
    if k :| 0 <= k < |l| && l[k].id == id {
      OneOfThem(l, id, now, k);
      OneOfThem(l', id, now, k);
    } else {
      NoneOfThem(l, id, now);
      NoneOfThem(l', id, now);
    }
  }

  lemma OrphansStop(l: Ledger, l': Ledger, id: Id, now: int)
    requires AllOrphansGivenUp(l, l', now) && IdsUnique(l)
    ensures SameIds(l, l') && IdsUnique(l') && !RunsIn(l', id)
  {
    SameIdsUnique(l, l');
  }

  lemma RoomIsMade(l: Ledger, l': Ledger, id: Id)
    requires MadeRoom(l, l') && IdsUnique(l)
    ensures IdsUnique(l') && (RunsIn(l', id) <==> RunsIn(l, id))
    ensures Ids(l') <= Ids(l)
  {
    if l' != l {
      var k: nat :| IsOldestOver(l, k) && l' == l[..k] + l[k + 1..];
      OneRemoved(l, k, id);
    }
  }

  lemma OneRemoved(l: Ledger, k: nat, id: Id)
    requires k < |l| && IdsUnique(l) && l[k].status != Running
    ensures var l' := l[..k] + l[k + 1..];
            && IdsUnique(l') && (RunsIn(l', id) <==> RunsIn(l, id))
            && Ids(l') <= Ids(l)
  {
    var l' := l[..k] + l[k + 1..];
    assert forall j :: 0 <= j < |l'| ==> l'[j] == if j < k then l[j] else l[j + 1];
    if RunsIn(l, id) {
      var i :| 0 <= i < |l| && l[i].id == id && l[i].status == Running;
      assert l'[if i < k then i else i - 1] == l[i];
    }
  }

  lemma LaunchRuns(l: Ledger, op: Op, now: int, l': Ledger, id: Id)
    requires op.Launch? && IsDone(l, op, now, l') && IdsUnique(l) && op.id !in Ids(l)
    ensures IdsUnique(l')
    ensures RunsIn(l', id) <==> (op.id == id && op.status == Running) || (RunsIn(l, id) && !StaleIn(l, id, now))
    ensures Ids(l') <= Ids(l) + {op.id}
  {
    hide AllStaleGivenUp, MadeRoom, IdsUnique, RunsIn, StaleIn;
    var most, last := l'[..|l'| - 1], l'[|l'| - 1];
    var current :| AllStaleGivenUp(l, current, now) && MadeRoom(current, most);
    StaleRuns(l, current, id, now);
    RoomIsMade(current, most, id);
    SameIdSet(l, current);
    OneAdded(most, last, id);
    assert l' == most + [last];
  }

  lemma OneAdded(most: Ledger, last: Session, id: Id)
    requires IdsUnique(most) && last.id !in Ids(most)
    ensures IdsUnique(most + [last])
    ensures RunsIn(most + [last], id) <==> (last.id == id && last.status == Running) || RunsIn(most, id)
    ensures Ids(most + [last]) <= Ids(most) + {last.id}
  {
    var l := most + [last];
    assert l[|most|] == last && forall k :: 0 <= k < |most| ==> l[k] == most[k] && most[k] in most;
    if RunsIn(most, id) {
      var k :| 0 <= k < |most| && most[k].id == id && most[k].status == Running;
      assert l[k] == most[k];
    }
  }

  lemma EditRuns(l: Ledger, op: Op, now: int, l': Ledger, id: Id)
    requires Edits(op) && CanDo(l, op, now) && IsDone(l, op, now, l') && IdsUnique(l)
    ensures SameIds(l, l') && IdsUnique(l')
    ensures RunsIn(l', id) <==>
              || op == AcceptProcess(id)
              || (&& RunsIn(l, id) && !((op.RequestStop? || op.Finish? || op.Fail? || op.Interrupt?) && op.id == id)
                  && !(GivesUpStaleFirst(op) && StaleIn(l, id, now)))
  {
    hide RunsIn, StaleIn, Readable, IdsUnique, ValidProposals;
    var k: nat :| IsSession(l, op.id, k) && Does(op, l[k], l'[k], now)
                  && forall i :: 0 <= i < |l| && i != k ==> if GivesUpStaleFirst(op) then StaleGivenUp(l[i], l'[i], now) else l'[i] == l[i];
    var n: nat :| IsSession(l, op.id, n) && Suits(op, l[n].status) && (GivesUpStaleFirst(op) ==> !IsStale(l[n], now));
    assert n == k;
    EditKeepsIds(l, op, now, l', k);
    SameIdsUnique(l, l');
    hide Does, IsStale, Suits, StaleGivenUp, SameIds;
    if j: nat :| j < |l| && l[j].id == id {
      OneAfterTheEdit(l, op, now, l', id, k, j);
    } else {
      NoneOfThem(l, id, now);
      NoneAsBefore(l, l', id, now);
    }
  }

  lemma NoneAsBefore(l: Ledger, l': Ledger, id: Id, now: int)
    requires SameIds(l, l') && forall k :: 0 <= k < |l| ==> l[k].id != id
    ensures !RunsIn(l', id)
  {
    NoneOfThem(l', id, now);
  }

  /** The session at j, which the operation edits or leaves to be given up. */
  lemma OneAfterTheEdit(l: Ledger, op: Op, now: int, l': Ledger, id: Id, k: nat, j: nat)
    requires Edits(op) && IdsUnique(l) && IdsUnique(l') && SameIds(l, l') && k < |l| && j < |l| && l[j].id == id
    requires l[k].id == op.id && Suits(op, l[k].status) && Does(op, l[k], l'[k], now) && (GivesUpStaleFirst(op) ==> !IsStale(l[k], now))
    requires j != k ==> if GivesUpStaleFirst(op) then StaleGivenUp(l[j], l'[j], now) else l'[j] == l[j]
    ensures RunsIn(l', id) <==>
              || op == AcceptProcess(id)
              || (&& RunsIn(l, id) && !((op.RequestStop? || op.Finish? || op.Fail? || op.Interrupt?) && op.id == id)
                  && !(GivesUpStaleFirst(op) && StaleIn(l, id, now)))
  {
    OneOfThem(l, id, now, j);
    OneOfThem(l', id, now, j);
    hide RunsIn, StaleIn;
    assert (id == op.id) == (j == k);
    hide IdsUnique;
    if j == k { DoneRuns(op, l[k], l'[k], now); }
  }

  lemma EditKeepsIds(l: Ledger, op: Op, now: int, l': Ledger, k: nat)
    requires |l'| == |l| && k < |l| && Does(op, l[k], l'[k], now)
    requires forall i :: 0 <= i < |l| && i != k ==> if GivesUpStaleFirst(op) then StaleGivenUp(l[i], l'[i], now) else l'[i] == l[i]
    ensures SameIds(l, l')
  {
  }

  lemma DoneRuns(op: Op, a: Session, b: Session, now: int)
    requires Edits(op) && Does(op, a, b, now) && Suits(op, a.status)
    ensures b.status == Running <==> op.AcceptProcess? || (a.status == Running && !op.RequestStop? && !op.Finish? && !op.Fail? && !op.Interrupt?)
  {
  }

  /** One event, whatever it is and whether or not its write succeeds. */
  lemma NextRuns(l: Ledger, e: Event, id: Id)
    requires IdsUnique(l) && (e.op.Launch? ==> e.op.id !in Ids(l))
    ensures IdsUnique(Next(l, e))
    ensures RunsIn(Next(l, e), id) <==> Begins(l, e, id) || (RunsIn(l, id) && !Stops(l, e, id))
    ensures Ids(Next(l, e)) <= Ids(l) + (if e.op.Launch? then {e.op.id} else {})
  {
    hide IdsUnique, RunsIn, StaleIn, IsDone, AllStaleGivenUp, AllOrphansGivenUp, IsStale, ValidProposals, Readable, Suits, IsSession;
    var l' := Next(l, e);
    DoneExactly(l, e.op, e.now);
    if e.written {
      hide After;
      if CanDo(l, e.op, e.now) {
        if e.op.Launch? {
          LaunchRuns(l, e.op, e.now, l', id);
        } else if e.op.ListSessions? {
          DoneListing(l, e.op, e.now, l');
          StaleRuns(l, l', id, e.now);
          SameIdSet(l, l');
        } else if e.op.Open? {
          DoneListing(l, e.op, e.now, l');
          OrphansStop(l, l', id, e.now);
          SameIdSet(l, l');
        } else {
          EditRuns(l, e.op, e.now, l', id);
          SameIdSet(l, l');
          DoneHasSession(l, e.op, e.now);
        }
      } else {
        RefusedRuns(l, e, id);
        SameIdSet(l, l');
      }
    }
  }

  lemma DoneListing(l: Ledger, op: Op, now: int, l': Ledger)
    requires IsDone(l, op, now, l')
    ensures op.ListSessions? ==> AllStaleGivenUp(l, l', now)
    ensures op.Open? ==> AllOrphansGivenUp(l, l', now)
  {
    hide AllStaleGivenUp, AllOrphansGivenUp;
  }

  lemma DoneHasSession(l: Ledger, op: Op, now: int)
    requires CanDo(l, op, now) && Edits(op)
    ensures Readable(l) && (op.SetChangeRequests? || op.SetLinks? ==> ValidProposals(op.proposals))
    ensures exists k :: 0 <= k < |l| && l[k].id == op.id
  {
    hide Readable, ValidProposals, Suits, IsStale;
    var k: nat :| IsSession(l, op.id, k) && Suits(op, l[k].status);
    assert l[k].id == op.id;
  }

  lemma RefusedRuns(l: Ledger, e: Event, id: Id)
    requires IdsUnique(l) && e.written && !CanDo(l, e.op, e.now)
    ensures IdsUnique(Next(l, e)) && (RunsIn(Next(l, e), id) <==> RunsIn(l, id) && !Stops(l, e, id))
    ensures SameIds(l, Next(l, e))
  {
    DoneExactly(l, e.op, e.now);
    hide IdsUnique, RunsIn, StaleIn, IsDone, AllStaleGivenUp, AllOrphansGivenUp, CanDo, RecoverStale, RecoverOrphaned, Edited, Applies, Pruned;
    var plan := PlanOf(l, e.op, e.now);
    RefusedWrites(l, e);
    if plan.write.Some? {
      StaleRuns(l, Next(l, e), id, e.now);
    }
  }

  /** A refused operation that writes has given up what was stale. */
  lemma RefusedWrites(l: Ledger, e: Event)
    requires e.written && PlanOf(l, e.op, e.now).refusal.Some?
    ensures PlanOf(l, e.op, e.now).write.Some? <==> GivesUpStale(l, e)
    ensures !Readable(l) || Edits(e.op)
  {
    hide RecoverStale, RecoverOrphaned, Edited, Pruned, Readable, ValidProposals;
    if Edits(e.op) {
      FoundIsSession(l, e.op.id);
      SessionLedger.SameIds(l, e.op.id, e.now);
      if !RecoversFirst(e.op) { AppliesToIt(l, e.op); }
    }
  }

  lemma AppliesToIt(l: Ledger, op: Op)
    requires Edits(op) && !RecoversFirst(op)
    ensures op.RequestStop? || op.SetLinks?
  {
  }

  // ---------------------------------------------------------------- whole histories

  lemma {:induction false} ReplayedOneMore(l: Ledger, events: seq<Event>, k: nat)
    requires k < |events|
    ensures Replayed(l, events[..k + 1]) == Next(Replayed(l, events[..k]), events[k])
    decreases |events|
  {
    hide After;
    if k > 0 {
      assert events[..k + 1][1..] == events[1..][..k] && events[..k][1..] == events[1..][..k - 1];
      ReplayedOneMore(Next(l, events[0]), events[1..], k - 1);
    }
  }

  /** The ledger before event k of a history from an empty file. */
  function At(events: seq<Event>, k: nat): Ledger {
    if k <= |events| then Replayed([], events[..k]) else []
  }

  /** Session ids are random: no two launches have the same. */
  ghost predicate LaunchedOnce(events: seq<Event>) {
    forall i, j :: 0 <= i < j < |events| && events[i].op.Launch? && events[j].op.Launch? ==> events[i].op.id != events[j].op.id
  }

  ghost predicate LaunchedBefore(events: seq<Event>, k: nat, id: Id) {
    exists i: nat :: i < k && i < |events| && events[i].op.Launch? && events[i].op.id == id
  }

  lemma FreshLaunch(events: seq<Event>, k: nat)
    requires LaunchedOnce(events) && k < |events|
    ensures events[k].op.Launch? ==> !LaunchedBefore(events, k, events[k].op.id)
  {
  }

  lemma AtTheEnds(events: seq<Event>)
    ensures At(events, |events|) == Replayed([], events) && At(events, 0) == []
  {
    assert events[..|events|] == events && events[..0] == [];
  }

  lemma {:induction false} OnlyLaunchedAreThere(events: seq<Event>, k: nat)
    requires LaunchedOnce(events) && k <= |events|
    ensures IdsUnique(At(events, k)) && forall id :: id in Ids(At(events, k)) ==> LaunchedBefore(events, k, id)
  {
    hide Next, RunsIn, Begins, Stops, Replayed;
    if k == 0 {
      AtTheEnds(events);
    } else {
      OnlyLaunchedAreThere(events, k - 1);
      ReplayedOneMore([], events, k - 1);
      var l, e := At(events, k - 1), events[k - 1];
      FreshLaunch(events, k - 1);
      NextRuns(l, e, 0);
      forall id | id in Ids(At(events, k)) ensures LaunchedBefore(events, k, id) {
        if id in Ids(l) {
          var i: nat :| i < k - 1 && events[i].op.Launch? && events[i].op.id == id;
        } else {
          assert events[k - 1].op.Launch? && events[k - 1].op.id == id;
        }
      }
    }
  }

  /**
   At the end of any history, with any clock and any failing writes, a session runs if and only if it was launched running
   or its process was accepted, and since then nothing has stopped, finished, failed or interrupted it, no operation has
   given it up as stale, and the ledger has not been opened anew.
   */
  lemma RunsExactlyIf(events: seq<Event>, id: Id)
    requires LaunchedOnce(events)
    ensures RunsIn(Replayed([], events), id) <==>
              SetAndNotCleared(false, (i: nat) => i < |events| && Begins(At(events, i), events[i], id),
                               (i: nat) => i < |events| && Stops(At(events, i), events[i], id), |events|)
  {
    hide SetAndNotCleared, Begins, Stops, Replayed, At, Next;
    AtTheEnds(events);
    forall k: nat | k < |events|
      ensures RunsIn(At(events, k + 1), id) <==> Begins(At(events, k), events[k], id) || (RunsIn(At(events, k), id) && !Stops(At(events, k), events[k], id))
    {
      RunsAfterOneMore(events, k, id);
    }
    LastDecides((k: nat) => RunsIn(At(events, k), id), (i: nat) => i < |events| && Begins(At(events, i), events[i], id),
                (i: nat) => i < |events| && Stops(At(events, i), events[i], id), |events|);
    assert !RunsIn([], id);
  }

  lemma RunsAfterOneMore(events: seq<Event>, k: nat, id: Id)
    requires LaunchedOnce(events) && k < |events|
    ensures RunsIn(At(events, k + 1), id) <==> Begins(At(events, k), events[k], id) || (RunsIn(At(events, k), id) && !Stops(At(events, k), events[k], id))
  {
    hide Next, RunsIn, Begins, Stops, Replayed;
    OnlyLaunchedAreThere(events, k);
    ReplayedOneMore([], events, k);
    var e := events[k];
    FreshLaunch(events, k);
    NextRuns(At(events, k), e, id);
  }
}
