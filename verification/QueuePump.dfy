/**
 What one pass of the queue pump does to the store: recovery of everything that nobody owns,
 then one attempt per workspace, for its least queued message only.
 */
module QueuePump {
  import opened Options
  import opened Conversations
  import opened ConversationEdits
  import opened QueueProtocol
  import opened QueueSafety
  import opened QueueRuns
  import opened SharedDisk

  const TURN_CAPACITY := 3 * 1024 * 1024   // 16 MiB per file less 13 MiB that one turn may add
  const TOO_LARGE := "The conversation is too large."
  const COULD_NOT_START := "The queued request could not start: "

  /** What the pump meets when it tries to start a message; session and reply are random ids. */
  datatype Attempt = Attempt(
    deferred: bool,               // a restore or integration is pending, or the workspace operation lease is taken
    operation: Option<string>,    // the operation lease could not be opened
    lease: Option<string>,        // the turn lease could not be opened
    launch: Option<string>,       // the session ledger refused the launch
    session: Id,
    reply: Id)

  /** One pass: the pumping host, what each message meets (by message id), file sizes and the time. */
  datatype Pass = Pass(host: nat, attempt: Id -> Attempt, size: Conversation -> nat, now: int)

  datatype Verdict = Leave | Refused(error: string) | Launched

  function Decision(a: Attempt, length: nat, free: bool): Verdict {
    if a.deferred then Leave
    else if a.operation.Some? then Refused(COULD_NOT_START + a.operation.value)
    else if length > TURN_CAPACITY then Refused(COULD_NOT_START + TOO_LARGE)
    else if a.lease.Some? then Refused(COULD_NOT_START + a.lease.value)
    else if !free then Leave
    else if a.launch.Some? then Refused(COULD_NOT_START + a.launch.value)
    else Launched
  }

  function Attempted(c: Conversation, index: nat, v: Verdict, a: Attempt, now: int): Conversation
    requires index < |c.messages|
  {
    match v
    case Leave => c
    case Refused(error) => NotStarted(c, index, error)
    case Launched => Claimed(c, index, a.session, a.reply, now)
  }

  /** The conversation after a read that recovers it when its lease is free. */
  function Refreshed(s: Store, c: Conversation): Conversation {
    if c.active.Some? && LeaseFree(s, KeyOf(c)) then Recovered(c) else c
  }

  /** Leases do not depend on what is in the files. */
  lemma LeasesIgnoreContents(s: Store, s': Store, key: Key)
    requires s'.conversations.Keys == s.conversations.Keys
    requires forall id :: id in s.conversations ==> KeyOf(s'.conversations[id]) == KeyOf(s.conversations[id])
    requires s'.homes == s.homes && s'.workers == s.workers && s'.children == s.children && s'.others == s.others
    ensures LeaseFree(s', key) <==> LeaseFree(s, key)
  {
    assert forall x :: Homed(s.conversations, s.homes, x) <==> Homed(s'.conversations, s.homes, x);
    assert forall x :: Homed(s.conversations, s.homes, x) ==> LeaseOf(s'.conversations, s.homes, x) == LeaseOf(s.conversations, s.homes, x);
  }

  // ---------------------------------------------------------------- the whole pass

  /** The store after everything that nobody owns has been recovered. */
  function AllRefreshed(s: Store): Store {
    s.(conversations := map id | id in s.conversations :: Refreshed(s, s.conversations[id]))
  }

  /** The fate of conversation id in a pass over s, given what the files and workers are afterwards. */
  ghost predicate PumpedOne(s: Store, id: Id, after: Saved, workers: map<Id, Worker>, p: Pass)
    requires id in s.conversations && id in after
  {
    var c := s.conversations[id];
    && (forall i: nat :: Eligible(s.conversations, id, i) ==>
          var a := p.attempt(c.messages[i].id);
          var v := Decision(a, p.size(c), LeaseFree(s, KeyOf(c)));
          && after[id] == Attempted(c, i, v, a, p.now)
          && (v.Launched? ==> a.session in workers && workers[a.session] == Worker(p.host, a.reply)))
    && ((forall i: nat :: !Eligible(s.conversations, id, i)) ==> after[id] == c)
  }

  ghost predicate Pumped(s: Store, after: Saved, workers: map<Id, Worker>, p: Pass) {
    after.Keys == s.conversations.Keys && forall id :: id in after ==> PumpedOne(s, id, after, workers, p)
  }

  // ---------------------------------------------------------------- in the middle of a pass

  predicate Unused(a: Attempt, issued: Names) {
    a.session !in issued && a.reply !in issued && a.session != a.reply
  }

  /** Random ids: nobody has them yet, and no two messages get the same. */
  ghost predicate NamesDistinct(attempt: Id -> Attempt) {
    forall m, n :: (m != n) ==> (&& attempt(m).session != attempt(n).session && attempt(m).reply != attempt(n).reply
                                 && attempt(m).session != attempt(n).reply)
  }

  ghost predicate NamesUnused(cs: Saved, busy: set<Workspace>, attempt: Id -> Attempt, issued: Names) {
    forall id, i :: (id in cs && cs[id].workspace !in busy && 0 <= i < |cs[id].messages|)
                    ==> Unused(attempt(cs[id].messages[i].id), issued)
  }

  ghost predicate LeasesAgree(s: Store, t: Store, busy: set<Workspace>) {
    forall key: Key :: key.workspace !in busy ==> (LeaseFree(t, key) <==> LeaseFree(s, key))
  }

  ghost predicate SamePlaces(cs: Saved, ds: Saved) {
    ds.Keys == cs.Keys && forall id :: id in cs ==> KeyOf(ds[id]) == KeyOf(cs[id])
  }

  /** The workspaces in busy have been dealt with; the others are as they were at s. */
  ghost predicate FilesDispatched(s: Store, t: Store, busy: set<Workspace>, p: Pass) {
    && SamePlaces(s.conversations, t.conversations)
    && (forall id :: id in s.conversations && s.conversations[id].workspace !in busy ==> t.conversations[id] == s.conversations[id])
    && (forall id :: id in s.conversations && s.conversations[id].workspace in busy
          ==> PumpedOne(s, id, t.conversations, t.workers, p))
  }

  ghost predicate Dispatching(s: Store, t: Store, busy: set<Workspace>, p: Pass) {
    && FilesDispatched(s, t, busy, p)
    && LeasesAgree(s, t, busy)
    && NamesUnused(s.conversations, busy, p.attempt, t.issued)
    && (forall id :: id in s.conversations && s.conversations[id].active.Some? ==> s.conversations[id].workspace in busy)
  }

  lemma DispatchBegins(s: Store, busy: set<Workspace>, p: Pass)
    requires NamesUnused(s.conversations, {}, p.attempt, s.issued)
    requires forall w :: w in busy <==> exists id :: id in s.conversations && s.conversations[id].active.Some? && s.conversations[id].workspace == w
    ensures Dispatching(s, s, busy, p)
  {
    forall id | id in s.conversations && s.conversations[id].workspace in busy
      ensures PumpedOne(s, id, s.conversations, s.workers, p)
    {
      assert !Idle(s.conversations, s.conversations[id].workspace);
    }
  }

  /** In a workspace not yet dealt with, the least queued message of the pass is still the eligible one. */
  lemma LeastIsEligible(s: Store, t: Store, busy: set<Workspace>, p: Pass, id: Id, i: nat)
    requires Dispatching(s, t, busy, p) && id in s.conversations && i in QueuedAt(s.conversations[id])
    requires s.conversations[id].workspace !in busy
    requires forall x, j :: x in s.conversations && s.conversations[x].workspace == s.conversations[id].workspace
                            && j in QueuedAt(s.conversations[x])
               ==> SequenceAt(s.conversations[id], i) <= SequenceAt(s.conversations[x], j)
    ensures Eligible(s.conversations, id, i) && Eligible(t.conversations, id, i)
  {
    hide LeasesAgree, NamesUnused, PumpedOne, QueuedAt;
    var w := s.conversations[id].workspace;
    forall x | x in t.conversations && t.conversations[x].workspace == w ensures t.conversations[x] == s.conversations[x] {
      assert KeyOf(t.conversations[x]) == KeyOf(s.conversations[x]);
    }
  }

  /** At most one message of a workspace is eligible. */
  lemma EligibleIsUnique(s: Store, id: Id, i: nat, id': Id, i': nat)
    requires TicketsUnique(s.conversations, s.tickets, s.counter) && ConversationsSound(s.conversations)
    requires Eligible(s.conversations, id, i) && Eligible(s.conversations, id', i')
    requires s.conversations[id].workspace == s.conversations[id'].workspace
    ensures id == id' && i == i'
  {
    QueuedIsUser(s.conversations[id], i);
    QueuedIsUser(s.conversations[id'], i');
    assert SequenceAt(s.conversations[id], i) == SequenceAt(s.conversations[id'], i');
    assert s.tickets[SequenceAt(s.conversations[id], i)] == Slot(id, i);
    assert s.tickets[SequenceAt(s.conversations[id'], i')] == Slot(id', i');
  }

  /** The files and workers of t' are those of t after the attempt on the eligible message (id, i). */
  ghost predicate AttemptMade(s: Store, t: Store, t': Store, p: Pass, id: Id, i: nat)
    requires id in s.conversations && i < |s.conversations[id].messages|
  {
    var c := s.conversations[id];
    var a := p.attempt(c.messages[i].id);
    var v := Decision(a, p.size(c), LeaseFree(s, KeyOf(c)));
    && t'.conversations == t.conversations[id := Attempted(c, i, v, a, p.now)]
    && (forall x :: x in t.workers ==> x in t'.workers && t'.workers[x] == t.workers[x])
    && (v.Launched? ==> a.session in t'.workers && t'.workers[a.session] == Worker(p.host, a.reply))
  }

  lemma AttemptKeepsPlace(c: Conversation, i: nat, v: Verdict, a: Attempt, now: int)
    requires i < |c.messages|
    ensures KeyOf(Attempted(c, i, v, a, now)) == KeyOf(c)
  {
  }

  lemma PumpedStays(s: Store, t: Store, t': Store, p: Pass, id: Id, i: nat, x: Id)
    requires id in s.conversations && i < |s.conversations[id].messages| && AttemptMade(s, t, t', p, id, i)
    requires x in s.conversations && x in t.conversations && x != id && PumpedOne(s, x, t.conversations, t.workers, p)
    ensures PumpedOne(s, x, t'.conversations, t'.workers, p)
  {
    hide Eligible, Decision, Attempted, LeaseFree;
  }

  /** The attempt settles its whole workspace. */
  lemma FilesAfterAttempt(s: Store, t: Store, t': Store, busy: set<Workspace>, p: Pass, id: Id, i: nat)
    requires TicketsUnique(s.conversations, s.tickets, s.counter) && ConversationsSound(s.conversations)
    requires id in s.conversations && i < |s.conversations[id].messages|
    requires FilesDispatched(s, t, busy, p) && Eligible(s.conversations, id, i) && s.conversations[id].workspace !in busy
    requires AttemptMade(s, t, t', p, id, i)
    ensures FilesDispatched(s, t', busy + {s.conversations[id].workspace}, p)
  {
    hide TicketsUnique, ConversationsSound, Eligible, Attempted, Decision, LeaseFree, PumpedOne;
    var w, c := s.conversations[id].workspace, s.conversations[id];
    var a := p.attempt(c.messages[i].id);
    AttemptKeepsPlace(c, i, Decision(a, p.size(c), LeaseFree(s, KeyOf(c))), a, p.now);
    forall x | x in s.conversations && s.conversations[x].workspace in busy + {w}
      ensures PumpedOne(s, x, t'.conversations, t'.workers, p)
    {
      if s.conversations[x].workspace in busy {
        PumpedStays(s, t, t', p, id, i, x);
      } else {
        SettledInItsWorkspace(s, t, t', p, id, i, x);
      }
    }
  }

  lemma SettledInItsWorkspace(s: Store, t: Store, t': Store, p: Pass, id: Id, i: nat, x: Id)
    requires TicketsUnique(s.conversations, s.tickets, s.counter) && ConversationsSound(s.conversations)
    requires id in s.conversations && i < |s.conversations[id].messages|
    requires Eligible(s.conversations, id, i) && AttemptMade(s, t, t', p, id, i)
    requires x in s.conversations && s.conversations[x].workspace == s.conversations[id].workspace
    requires x in t.conversations && t.conversations[x] == s.conversations[x]
    ensures x in t'.conversations && PumpedOne(s, x, t'.conversations, t'.workers, p)
  {
    hide TicketsUnique, ConversationsSound, Eligible, Attempted, Decision, LeaseFree;
    forall j: nat | Eligible(s.conversations, x, j) ensures x == id && j == i {
      EligibleIsUnique(s, id, i, x, j);
    }
  }

  /** After a launch in workspace w only leases of w are held that were free. */
  lemma ClaimHoldsItsOwnLease(t: Store, p: Pass, id: Id, i: nat, session: Id, reply: Id, key: Key)
    requires id in t.conversations && i < |t.conversations[id].messages|
    requires session !in t.homes && session !in Holders(t) && key != KeyOf(t.conversations[id])
    ensures LeaseFree(AfterClaim(t, p.host, id, i, session, reply, p.now), key) <==> LeaseFree(t, key)
  {
    var t' := AfterClaim(t, p.host, id, i, session, reply, p.now);
    assert Holders(t') == Holders(t) + {session};
    assert KeyOf(t'.conversations[id]) == KeyOf(t.conversations[id]);
    forall x | x != session
      ensures Homed(t'.conversations, t'.homes, x) <==> Homed(t.conversations, t.homes, x)
      ensures Homed(t.conversations, t.homes, x) ==> LeaseOf(t'.conversations, t'.homes, x) == LeaseOf(t.conversations, t.homes, x)
    {
    }
    assert LeaseOf(t'.conversations, t'.homes, session) == KeyOf(t.conversations[id]);
  }

  /** A claim uses up the names of its own message only. */
  lemma ClaimUsesItsOwnNames(s: Store, issued: Names, issued': Names, busy: set<Workspace>, p: Pass, id: Id, i: nat)
    requires id in s.conversations && i < |s.conversations[id].messages| && IdsIssued(s.conversations, s.issued)
    requires NamesUnused(s.conversations, busy, p.attempt, issued) && NamesDistinct(p.attempt)
    requires var a := p.attempt(s.conversations[id].messages[i].id); issued'.Keys <= issued.Keys + {a.session, a.reply}
    ensures NamesUnused(s.conversations, busy + {s.conversations[id].workspace}, p.attempt, issued')
  {
    var cs, m := s.conversations, s.conversations[id].messages[i].id;
    forall x, j | x in cs && cs[x].workspace !in busy + {cs[id].workspace} && 0 <= j < |cs[x].messages|
      ensures Unused(p.attempt(cs[x].messages[j].id), issued')
    {
      var n := cs[x].messages[j].id;
      assert s.issued[m] == Some(Slot(id, i)) && s.issued[n] == Some(Slot(x, j));
      assert m != n;
      assert Unused(p.attempt(n), issued);
      assert p.attempt(m).session != p.attempt(n).session && p.attempt(n).session != p.attempt(m).reply;
    }
  }

  /** When every workspace with a queued message has been dealt with, the pass is complete. */
  lemma DispatchEnds(s: Store, t: Store, busy: set<Workspace>, p: Pass)
    requires FilesDispatched(s, t, busy, p)
    requires forall id, i :: id in s.conversations && i in QueuedAt(s.conversations[id]) ==> s.conversations[id].workspace in busy
    ensures Pumped(s, t.conversations, t.workers, p)
  {
    hide Decision, Attempted, LeaseFree;
    forall id | id in t.conversations ensures PumpedOne(s, id, t.conversations, t.workers, p) {
      if s.conversations[id].workspace !in busy {
        assert QueuedAt(s.conversations[id]) == {};
      }
    }
  }

  lemma FreshSessionHoldsNothing(s: Store, session: Id)
    requires Inv(s) && session !in s.issued
    ensures session !in s.homes && session !in Holders(s)
  {
    assert SessionsHomed(s.conversations, s.homes, s.issued);
    assert WorkersOwnTheirTurn(s.conversations, s.homes, s.workers);
    assert ChildrenAccounted(s.conversations, s.homes, s.children, s.finished);
  }

  lemma AttemptDispatches(s: Store, t: Store, t': Store, busy: set<Workspace>, p: Pass, id: Id, i: nat)
    requires Inv(s) && Dispatching(s, t, busy, p) && NamesDistinct(p.attempt)
    requires id in s.conversations && i < |s.conversations[id].messages|
    requires Eligible(s.conversations, id, i) && s.conversations[id].workspace !in busy
    requires AttemptMade(s, t, t', p, id, i)
    requires var a := p.attempt(s.conversations[id].messages[i].id); t'.issued.Keys <= t.issued.Keys + {a.session, a.reply}
    requires forall key :: key != KeyOf(s.conversations[id]) ==> (LeaseFree(t', key) <==> LeaseFree(t, key))
    ensures Dispatching(s, t', busy + {s.conversations[id].workspace}, p)
  {
    hide TicketsUnique, ConversationsSound, IdsIssued, Inv, Eligible, FilesDispatched, NamesUnused, NamesDistinct,
         AttemptMade, LeaseFree, LeasesAgree;
    BooksOf(s);
    FilesAfterAttempt(s, t, t', busy, p, id, i);
    ClaimUsesItsOwnNames(s, t.issued, t'.issued, busy, p, id, i);
    LeasesStillAgree(s, t, t', busy, s.conversations[id]);
  }

  lemma BooksOf(s: Store)
    requires Inv(s)
    ensures TicketsUnique(s.conversations, s.tickets, s.counter) && ConversationsSound(s.conversations) && IdsIssued(s.conversations, s.issued)
  {
  }

  lemma LeasesStillAgree(s: Store, t: Store, t': Store, busy: set<Workspace>, c: Conversation)
    requires LeasesAgree(s, t, busy) && forall key :: key != KeyOf(c) ==> (LeaseFree(t', key) <==> LeaseFree(t, key))
    ensures LeasesAgree(s, t', busy + {c.workspace})
  {
    hide LeaseFree;
  }

  lemma NothingAttempted(s: Store, t: Store, busy: set<Workspace>, p: Pass, id: Id, i: nat)
    requires Inv(s) && Dispatching(s, t, busy, p) && NamesDistinct(p.attempt)
    requires id in s.conversations && i < |s.conversations[id].messages|
    requires Eligible(s.conversations, id, i) && s.conversations[id].workspace !in busy
    requires var c := s.conversations[id]; Decision(p.attempt(c.messages[i].id), p.size(c), LeaseFree(t, KeyOf(c))).Leave?
    ensures Dispatching(s, t, busy + {s.conversations[id].workspace}, p)
  {
    hide LeaseFree, Inv, Eligible, Dispatching, NamesDistinct, Decision, KeyOf;
    UntouchedBefore(s, t, busy, p, id);
    assert t.conversations[id := s.conversations[id]] == t.conversations;
    AttemptDispatches(s, t, t, busy, p, id, i);
  }

  lemma UntouchedBefore(s: Store, t: Store, busy: set<Workspace>, p: Pass, id: Id)
    requires Dispatching(s, t, busy, p) && id in s.conversations && s.conversations[id].workspace !in busy
    ensures id in t.conversations && t.conversations[id] == s.conversations[id]
    ensures LeaseFree(t, KeyOf(s.conversations[id])) == LeaseFree(s, KeyOf(s.conversations[id]))
  {
    assert SamePlaces(s.conversations, t.conversations);
  }

  lemma RefusalTaken(start: Store, t: Store, id: Id, i: nat, error: string)
    requires Inv(t) && Reaches(start, t) && id in t.conversations && i < |t.conversations[id].messages| && Eligible(t.conversations, id, i)
    ensures var t' := AfterRefuse(t, id, i, error); Inv(t') && Reaches(start, t')
  {
    hide Inv, Reaches, Eligible, AfterRefuse;
    ReachesByStep(start, t, Refuse(id, i, error));
    StepKeepsInv(t, Refuse(id, i, error));
  }

  lemma RefusalKeepsLeases(t: Store, id: Id, i: nat, error: string, key: Key)
    requires id in t.conversations && i < |t.conversations[id].messages|
    ensures LeaseFree(AfterRefuse(t, id, i, error), key) <==> LeaseFree(t, key)
  {
    hide LeaseFree;
    LeasesIgnoreContents(t, AfterRefuse(t, id, i, error), key);
  }

  lemma RefusalDispatches(start: Store, s: Store, t: Store, busy: set<Workspace>, p: Pass, id: Id, i: nat, error: string)
    requires Inv(s) && Inv(t) && Reaches(start, t) && Dispatching(s, t, busy, p) && NamesDistinct(p.attempt)
    requires id in s.conversations && i < |s.conversations[id].messages|
    requires Eligible(s.conversations, id, i) && Eligible(t.conversations, id, i) && s.conversations[id].workspace !in busy
    requires var c := s.conversations[id]; Decision(p.attempt(c.messages[i].id), p.size(c), LeaseFree(t, KeyOf(c))) == Refused(error)
    ensures id in t.conversations && t.conversations[id] == s.conversations[id]
    ensures var t' := AfterRefuse(t, id, i, error); Inv(t') && Reaches(start, t') && Dispatching(s, t', busy + {s.conversations[id].workspace}, p)
  {
    hide LeaseFree, Inv, Eligible, Reaches, Dispatching, NamesDistinct, Decision, KeyOf;
    UntouchedBefore(s, t, busy, p, id);
    RefusalTaken(start, t, id, i, error);
    forall key ensures LeaseFree(AfterRefuse(t, id, i, error), key) <==> LeaseFree(t, key) {
      RefusalKeepsLeases(t, id, i, error, key);
    }
    AttemptDispatches(s, t, AfterRefuse(t, id, i, error), busy, p, id, i);
  }

  lemma ClaimTaken(start: Store, t: Store, host: nat, id: Id, i: nat, a: Attempt, now: int)
    requires Inv(t) && Reaches(start, t) && id in t.conversations && i < |t.conversations[id].messages| && Eligible(t.conversations, id, i)
    requires LeaseFree(t, KeyOf(t.conversations[id])) && Unused(a, t.issued)
    ensures var t' := AfterClaim(t, host, id, i, a.session, a.reply, now); Inv(t') && Reaches(start, t')
  {
    hide Inv, Reaches, Eligible, AfterClaim, LeaseFree;
    ReachesByStep(start, t, Claim(host, id, i, a.session, a.reply, now));
    StepKeepsInv(t, Claim(host, id, i, a.session, a.reply, now));
  }

  lemma NamesOfTheUntouched(s: Store, t: Store, busy: set<Workspace>, p: Pass, id: Id, i: nat)
    requires Dispatching(s, t, busy, p) && id in s.conversations && s.conversations[id].workspace !in busy
    requires i < |s.conversations[id].messages|
    ensures Unused(p.attempt(s.conversations[id].messages[i].id), t.issued)
  {
  }

  lemma LaunchDispatches(start: Store, s: Store, t: Store, busy: set<Workspace>, p: Pass, id: Id, i: nat)
    requires Inv(s) && Inv(t) && Reaches(start, t) && Dispatching(s, t, busy, p) && NamesDistinct(p.attempt)
    requires id in s.conversations && i < |s.conversations[id].messages|
    requires Eligible(s.conversations, id, i) && Eligible(t.conversations, id, i) && s.conversations[id].workspace !in busy
    requires var c := s.conversations[id]; Decision(p.attempt(c.messages[i].id), p.size(c), LeaseFree(t, KeyOf(c))).Launched?
    ensures id in t.conversations && t.conversations[id] == s.conversations[id]
    ensures var a := p.attempt(s.conversations[id].messages[i].id);
            var t' := AfterClaim(t, p.host, id, i, a.session, a.reply, p.now);
            Inv(t') && Reaches(start, t') && Dispatching(s, t', busy + {s.conversations[id].workspace}, p)
  {
    hide LeaseFree, Inv, Eligible, Reaches, Dispatching, NamesDistinct, KeyOf, Unused;
    var a := p.attempt(s.conversations[id].messages[i].id);
    UntouchedBefore(s, t, busy, p, id);
    NamesOfTheUntouched(s, t, busy, p, id, i);
    SessionIsNew(t, a);
    ClaimTaken(start, t, p.host, id, i, a, p.now);
    forall key | key != KeyOf(s.conversations[id])
      ensures LeaseFree(AfterClaim(t, p.host, id, i, a.session, a.reply, p.now), key) <==> LeaseFree(t, key)
    {
      ClaimHoldsItsOwnLease(t, p, id, i, a.session, a.reply, key);
    }
    AttemptDispatches(s, t, AfterClaim(t, p.host, id, i, a.session, a.reply, p.now), busy, p, id, i);
  }

  lemma SessionIsNew(t: Store, a: Attempt)
    requires Inv(t) && Unused(a, t.issued)
    ensures a.session !in t.homes && a.session !in Holders(t) && a.session !in t.workers
  {
    hide Inv;
    FreshSessionHoldsNothing(t, a.session);
  }

  // ---------------------------------------------------------------- a pass serves every workspace that it can

  lemma RefreshKeepsTheQueue(s: Store, id: Id)
    requires ConversationsSound(s.conversations) && id in s.conversations
    ensures var c := Refreshed(s, s.conversations[id]);
            && Sound(c) && QueuedAt(c) == QueuedAt(s.conversations[id]) && c.id == id && KeyOf(c) == KeyOf(s.conversations[id])
            && |c.messages| == |s.conversations[id].messages|
            && forall i :: 0 <= i < |c.messages| ==> c.messages[i].sequence == s.conversations[id].messages[i].sequence
  {
    hide LeaseFree;
    RecoveredIsSound(s.conversations[id]);
  }

  lemma AllRefreshedIsSound(s: Store)
    requires ConversationsSound(s.conversations) && TicketsUnique(s.conversations, s.tickets, s.counter)
    ensures var t := AllRefreshed(s);
            && ConversationsSound(t.conversations) && TicketsUnique(t.conversations, t.tickets, t.counter)
            && SamePlaces(s.conversations, t.conversations)
            && forall id :: id in s.conversations ==> QueuedAt(t.conversations[id]) == QueuedAt(s.conversations[id])
  {
    hide Refreshed, Sound, QueuedAt;
    forall id | id in s.conversations
      ensures var c := Refreshed(s, s.conversations[id]);
              && Sound(c) && QueuedAt(c) == QueuedAt(s.conversations[id]) && c.id == id && KeyOf(c) == KeyOf(s.conversations[id])
              && |c.messages| == |s.conversations[id].messages|
              && forall i :: 0 <= i < |c.messages| ==> c.messages[i].sequence == s.conversations[id].messages[i].sequence
    {
      RefreshKeepsTheQueue(s, id);
    }
  }

  /** No lease of the workspace is held, and no message that waits there is deferred. */
  ghost predicate CanServe(s: Store, w: Workspace, p: Pass) {
    && (forall key: Key :: key.workspace == w ==> LeaseFree(s, key))
    && (forall id, i :: id in s.conversations && s.conversations[id].workspace == w && i in QueuedAt(s.conversations[id])
          ==> !p.attempt(s.conversations[id].messages[i].id).deferred)
  }

  /** What has become of the message that was served: it runs and a worker holds its lease, or it has failed. */
  ghost predicate Served(c: Conversation, i: nat, c': Conversation, workers: map<Id, Worker>, p: Pass)
    requires i < |c.messages| && i < |c'.messages|
  {
    var a := p.attempt(c.messages[i].id);
    match Decision(a, p.size(c), true)
    case Leave => false
    case Refused(error) => c'.messages[i].status.Failed? && c'.messages[i].error == Some(error)
    case Launched =>
      && c'.active == Some(a.session) && c'.messages[i].status.Running? && c'.messages[i].session == Some(a.session)
      && a.session in workers && workers[a.session] == Worker(p.host, a.reply)
  }

  lemma RefreshedLeases(s: Store, key: Key)
    requires SamePlaces(s.conversations, AllRefreshed(s).conversations)
    ensures LeaseFree(AllRefreshed(s), key) <==> LeaseFree(s, key)
  {
    hide LeaseFree;
    LeasesIgnoreContents(s, AllRefreshed(s), key);
  }

  lemma RefreshedIsIdle(s: Store, w: Workspace)
    requires forall key: Key :: key.workspace == w ==> LeaseFree(s, key)
    ensures Idle(AllRefreshed(s).conversations, w)
  {
    hide LeaseFree;
    forall id | id in s.conversations && Refreshed(s, s.conversations[id]).workspace == w
      ensures Refreshed(s, s.conversations[id]).active.None?
    {
      assert KeyOf(s.conversations[id]).workspace == w;
    }
  }

  lemma AttemptedQueue(c: Conversation, i: nat, v: Verdict, a: Attempt, now: int)
    requires i in QueuedAt(c) && !v.Leave?
    ensures QueuedAt(Attempted(c, i, v, a, now)) == QueuedAt(c) - {i}
  {
    var c' := Attempted(c, i, v, a, now);
    forall k: nat ensures k in QueuedAt(c') <==> k in QueuedAt(c) - {i} {
      if k < |c.messages| && k != i { assert c'.messages[k] == c.messages[k]; }
    }
  }

  lemma ServedByTheAttempt(s: Store, id: Id, i: nat, after: Saved, workers: map<Id, Worker>, p: Pass)
    requires id in s.conversations && id in after && PumpedOne(s, id, after, workers, p)
    requires Eligible(s.conversations, id, i) && LeaseFree(s, KeyOf(s.conversations[id]))
    requires i < |s.conversations[id].messages| && !p.attempt(s.conversations[id].messages[i].id).deferred
    ensures i < |after[id].messages| && Served(s.conversations[id], i, after[id], workers, p)
    ensures QueuedAt(after[id]) == QueuedAt(s.conversations[id]) - {i}
  {
    hide Eligible, LeaseFree, Idle;
    var c := s.conversations[id];
    var a := p.attempt(c.messages[i].id);
    assert i in QueuedAt(c) by { EligibleIsQueued(s.conversations, id, i); }
    AttemptedQueue(c, i, Decision(a, p.size(c), true), a, p.now);
  }

  lemma EligibleIsQueued(cs: Saved, id: Id, i: nat)
    requires Eligible(cs, id, i)
    ensures id in cs && i in QueuedAt(cs[id])
  {
  }

  /** The pass leaves every other conversation of the workspace alone. */
  lemma OthersOfTheWorkspace(s: Store, id: Id, i: nat, x: Id, after: Saved, workers: map<Id, Worker>, p: Pass)
    requires ConversationsSound(s.conversations) && TicketsUnique(s.conversations, s.tickets, s.counter)
    requires Eligible(s.conversations, id, i) && x in s.conversations && x != id
    requires s.conversations[x].workspace == s.conversations[id].workspace
    requires x in after && PumpedOne(s, x, after, workers, p)
    ensures after[x] == s.conversations[x]
  {
    hide ConversationsSound, TicketsUnique, Eligible, Attempted, Decision, LeaseFree;
    forall j: nat ensures !Eligible(s.conversations, x, j) {
      if Eligible(s.conversations, x, j) { EligibleIsUnique(s, id, i, x, j); }
    }
  }

  lemma PumpedKeepsPlaces(s: Store, x: Id, after: Saved, workers: map<Id, Worker>, p: Pass)
    requires x in s.conversations && x in after && PumpedOne(s, x, after, workers, p)
    ensures KeyOf(after[x]) == KeyOf(s.conversations[x])
  {
    hide Eligible, Decision, LeaseFree;
  }

  lemma PumpedQueue(s: Store, after: Saved, workers: map<Id, Worker>, p: Pass, id: Id, i: nat)
    requires ConversationsSound(s.conversations) && TicketsUnique(s.conversations, s.tickets, s.counter)
    requires Pumped(s, after, workers, p) && Eligible(s.conversations, id, i)
    requires QueuedAt(after[id]) == QueuedAt(s.conversations[id]) - {i}
    ensures QueuedIn(after, s.conversations[id].workspace) == QueuedIn(s.conversations, s.conversations[id].workspace) - {Slot(id, i)}
  {
    hide ConversationsSound, TicketsUnique, Eligible, PumpedOne, QueuedAt;
    EligibleIsQueued(s.conversations, id, i);
    var w := s.conversations[id].workspace;
    forall x | x in after ensures x in s.conversations && KeyOf(after[x]) == KeyOf(s.conversations[x]) {
      PumpedKeepsPlaces(s, x, after, workers, p);
    }
    forall x | x in after && s.conversations[x].workspace == w && x != id ensures after[x] == s.conversations[x] {
      OthersOfTheWorkspace(s, id, i, x, after, workers, p);
    }
  }

  lemma LeastOfTheRefreshed(s: Store, w: Workspace) returns (slot: Slot)
    requires QueuedIn(s.conversations, w) != {} && Idle(s.conversations, w)
    ensures slot in QueuedIn(s.conversations, w) && Eligible(s.conversations, slot.conversation, slot.index)
  {
    slot := LeastQueued(s.conversations, QueuedIn(s.conversations, w));
    forall x, i | x in s.conversations && s.conversations[x].workspace == w && i in QueuedAt(s.conversations[x])
      ensures SequenceAt(s.conversations[slot.conversation], slot.index) <= SequenceAt(s.conversations[x], i)
    {
      assert Slot(x, i) in QueuedIn(s.conversations, w);
    }
  }

  /**
   A pass with the leases of a workspace free takes exactly one message from its queue, and starts it or fails it
   with the reason that stood in its way.
   */
  lemma PassServesTheWorkspace(s: Store, after: Saved, workers: map<Id, Worker>, p: Pass, w: Workspace) returns (slot: Slot)
    requires Inv(s) && CanServe(s, w, p) && Pumped(AllRefreshed(s), after, workers, p) && QueuedIn(s.conversations, w) != {}
    ensures slot in QueuedIn(s.conversations, w) && QueuedIn(after, w) == QueuedIn(s.conversations, w) - {slot}
    ensures slot.conversation in s.conversations && slot.conversation in after
    ensures var c := Refreshed(s, s.conversations[slot.conversation]);
            slot.index < |c.messages| && slot.index < |after[slot.conversation].messages|
            && Served(c, slot.index, after[slot.conversation], workers, p)
  {
    hide ConversationsSound, TicketsUnique, SessionsHomed, IdsIssued, OneTurnPerWorkspace, WorkersOwnTheirTurn, ChildrenAccounted,
         LeasesExclusive, StartsInOrder, QueuesBounded, Eligible, LeaseFree, Served, QueuedAt, PumpedOne, Idle, Refreshed;
    var t := AllRefreshed(s);
    AllRefreshedIsSound(s);
    RefreshedIsIdle(s, w);
    assert QueuedIn(t.conversations, w) == QueuedIn(s.conversations, w);
    slot := LeastOfTheRefreshed(t, w);
    var id, i := slot.conversation, slot.index;
    RefreshedLeases(s, KeyOf(s.conversations[id]));
    RefreshedName(s, id, i);
    ServedByTheAttempt(t, id, i, after, workers, p);
    PumpedQueue(t, after, workers, p, id, i);
  }

  lemma RefreshedName(s: Store, id: Id, i: nat)
    requires id in s.conversations && i in QueuedAt(s.conversations[id])
    ensures var c := Refreshed(s, s.conversations[id]);
            i < |c.messages| && i < |s.conversations[id].messages| && c.messages[i].id == s.conversations[id].messages[i].id
  {
    hide LeaseFree;
  }

  /** Passes over the same queue: each finds its leases free, and nothing is sent or cancelled between one and the next. */
  ghost predicate PassesServe(stores: seq<Store>, afters: seq<Store>, passes: seq<Pass>, w: Workspace) {
    && |stores| == |afters| == |passes|
    && (forall k :: 0 <= k < |stores| ==>
          Inv(stores[k]) && CanServe(stores[k], w, passes[k])
          && Pumped(AllRefreshed(stores[k]), afters[k].conversations, afters[k].workers, passes[k]))
    && (forall k :: 0 < k < |stores| ==> QueuedIn(stores[k].conversations, w) == QueuedIn(afters[k - 1].conversations, w))
  }

  lemma EmptyQueueStaysEmpty(s: Store, after: Saved, workers: map<Id, Worker>, p: Pass, w: Workspace)
    requires Inv(s) && Pumped(AllRefreshed(s), after, workers, p) && QueuedIn(s.conversations, w) == {}
    ensures QueuedIn(after, w) == {}
  {
    hide ConversationsSound, TicketsUnique, SessionsHomed, IdsIssued, OneTurnPerWorkspace, WorkersOwnTheirTurn, ChildrenAccounted,
         LeasesExclusive, StartsInOrder, QueuesBounded, LeaseFree, PumpedOne, Refreshed, QueuedAt;
    var t := AllRefreshed(s);
    AllRefreshedIsSound(s);
    forall x | x in after && after[x].workspace == w ensures QueuedAt(after[x]) == {} {
      PumpedKeepsPlaces(t, x, after, workers, p);
      NothingWaits(s.conversations, x);
      NothingIsEligible(t, x, after, workers, p);
    }
  }

  lemma NothingWaits(cs: Saved, x: Id)
    requires x in cs
    ensures QueuedIn(cs, cs[x].workspace) == {} ==> QueuedAt(cs[x]) == {}
  {
    if i :| i in QueuedAt(cs[x]) {
      assert Slot(x, i) in QueuedIn(cs, cs[x].workspace);
    }
  }

  lemma NothingIsEligible(s: Store, x: Id, after: Saved, workers: map<Id, Worker>, p: Pass)
    requires x in s.conversations && x in after && PumpedOne(s, x, after, workers, p) && QueuedAt(s.conversations[x]) == {}
    ensures after[x] == s.conversations[x]
  {
    hide Attempted, Decision, LeaseFree, Idle, QueuedAt;
  }

  /** Every such pass shortens the queue by one message, until none is left. */
  lemma {:induction false} QueueDrains(stores: seq<Store>, afters: seq<Store>, passes: seq<Pass>, w: Workspace, k: nat)
    requires PassesServe(stores, afters, passes, w) && k < |stores|
    ensures var n := |QueuedIn(stores[0].conversations, w)|;
            |QueuedIn(afters[k].conversations, w)| == if k + 1 <= n then n - (k + 1) else 0
  {
    hide Inv, CanServe, Pumped, AllRefreshed, QueuedIn, Served;
    if k > 0 { QueueDrains(stores, afters, passes, w, k - 1); }
    var s, t := stores[k], afters[k];
    if QueuedIn(s.conversations, w) == {} {
      EmptyQueueStaysEmpty(s, t.conversations, t.workers, passes[k], w);
    } else {
      var slot := PassServesTheWorkspace(s, t.conversations, t.workers, passes[k], w);
    }
  }
}
