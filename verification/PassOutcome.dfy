/**
 What a pass of the queue pump leaves in the files, told from the store before it, for every reason that may keep
 the next message of a workspace from starting.
 */
module PassOutcome {
  import opened Options
  import opened Conversations
  import opened ConversationEdits
  import opened EditEffects
  import opened QueueProtocol
  import opened QueueRuns
  import opened QueuePump

  /** The conversation as a locked read leaves it: recovered if it has an active turn that nobody owns. */
  ghost predicate ReadAs(s: Store, c: Conversation, c': Conversation) {
    if c.active.Some? && LeaseFree(s, KeyOf(c)) then HasRecovered(c, c') else c' == c
  }

  /** Every turn of the workspace that is still active is one that nobody owns. */
  ghost predicate NoTurnGoesOn(s: Store, w: Workspace) {
    forall id :: id in s.conversations && s.conversations[id].workspace == w && s.conversations[id].active.Some?
                 ==> LeaseFree(s, KeyOf(s.conversations[id]))
  }

  /** The message waits, no turn of its workspace goes on, and no message of the workspace that waits was sent before it. */
  ghost predicate IsNext(s: Store, id: Id, i: nat) {
    && id in s.conversations && i < |s.conversations[id].messages|
    && s.conversations[id].messages[i].status.Queued? && s.conversations[id].messages[i].sequence.Some?
    && NoTurnGoesOn(s, s.conversations[id].workspace)
    && forall x, j :: x in s.conversations && s.conversations[x].workspace == s.conversations[id].workspace
                      && 0 <= j < |s.conversations[x].messages| && s.conversations[x].messages[j].status.Queued?
         ==> (s.conversations[x].messages[j].sequence.Some?
              && s.conversations[id].messages[i].sequence.value <= s.conversations[x].messages[j].sequence.value)
  }

  /** Left for a later pass: deferred, or all is well up to the turn lease, which someone holds. */
  predicate IsLeft(a: Attempt, fits: bool, free: bool) {
    a.deferred || (a.operation.None? && fits && a.lease.None? && !free)
  }

  /** The first obstacle in the order in which they are met is one that fails the message, for this reason. */
  predicate IsRefused(a: Attempt, fits: bool, free: bool, reason: string) {
    && !a.deferred
    && (|| a.operation == Some(reason)
        || (a.operation.None? && !fits && reason == TOO_LARGE)
        || (a.operation.None? && fits && a.lease == Some(reason))
        || (a.operation.None? && fits && a.lease.None? && free && a.launch == Some(reason)))
  }

  predicate IsStarted(a: Attempt, fits: bool, free: bool) {
    !a.deferred && a.operation.None? && fits && a.lease.None? && free && a.launch.None?
  }

  /** The next message of its workspace: what it meets decides whether it still waits, has failed or runs. */
  ghost predicate NextFares(s: Store, c: Conversation, i: nat, c': Conversation, workers: map<Id, Worker>, p: Pass) {
    i < |c.messages| && i < |c'.messages| &&
    var a, fits, free := p.attempt(c.messages[i].id), p.size(c) <= TURN_CAPACITY, LeaseFree(s, KeyOf(c));
    && (c'.messages[i].status.Queued? <==> IsLeft(a, fits, free))
    && (c'.messages[i].status.Failed? <==> exists reason :: IsRefused(a, fits, free, reason))
    && (c'.messages[i].status.Running? <==> IsStarted(a, fits, free))
    && (IsLeft(a, fits, free) ==> c' == c)
    && (forall reason :: IsRefused(a, fits, free, reason) ==> HasFailed(c, c', i, COULD_NOT_START + reason))
    && (IsStarted(a, fits, free) ==>
          HasStarted(c, c', i, a.session, a.reply, p.now) && a.session in workers && workers[a.session] == Worker(p.host, a.reply))
  }

  /** What becomes of one conversation: it is read, and only its next message, if it has the workspace's, may change. */
  ghost predicate Fares(s: Store, id: Id, after: Saved, workers: map<Id, Worker>, p: Pass)
    requires id in s.conversations && id in after
  {
    exists c ::
      && ReadAs(s, s.conversations[id], c)
      && (forall i: nat :: IsNext(s, id, i) ==> NextFares(s, c, i, after[id], workers, p))
      && ((forall i: nat :: !IsNext(s, id, i)) ==> after[id] == c)
  }

  ghost predicate AllFare(s: Store, after: Saved, workers: map<Id, Worker>, p: Pass) {
    after.Keys == s.conversations.Keys && forall id :: id in after ==> Fares(s, id, after, workers, p)
  }

  // ---------------------------------------------------------------- reading and recovering

  lemma RefreshedIsRead(s: Store, c: Conversation)
    ensures ReadAs(s, c, Refreshed(s, c))
  {
    hide LeaseFree;
    RecoveredHasRecovered(c);
  }

  lemma RefreshedWaits(s: Store, c: Conversation)
    ensures var r := Refreshed(s, c);
            && |r.messages| == |c.messages| && KeyOf(r) == KeyOf(c)
            && (r.active.Some? <==> c.active.Some? && !LeaseFree(s, KeyOf(c)))
            && forall i :: 0 <= i < |c.messages| ==>
                 && r.messages[i].id == c.messages[i].id && r.messages[i].sequence == c.messages[i].sequence
                 && (Waiting(r.messages[i]) <==> Waiting(c.messages[i]))
  {
    hide LeaseFree;
    RecoveredHasRecovered(c);
  }

  /** r has the same messages waiting under the same sequences. */
  ghost predicate SameQueue(c: Conversation, r: Conversation) {
    && |r.messages| == |c.messages| && r.workspace == c.workspace
    && forall j :: 0 <= j < |c.messages| ==>
         r.messages[j].sequence == c.messages[j].sequence && (Waiting(r.messages[j]) <==> Waiting(c.messages[j]))
  }

  ghost predicate AllQueuedHaveSequences(cs: Saved) {
    forall x, j :: x in cs && 0 <= j < |cs[x].messages| && Waiting(cs[x].messages[j]) ==> cs[x].messages[j].sequence.Some?
  }

  /** What is next before the pass is what is eligible once everything is recovered. */
  lemma NextIsEligible(s: Store, id: Id, i: nat)
    requires Inv(s)
    ensures IsNext(s, id, i) <==> Eligible(AllRefreshed(s).conversations, id, i)
  {
    QueuedHaveSequences(s);
    hide Inv, LeaseFree, Refreshed, Eligible, IsNext, SameQueue, AllQueuedHaveSequences, NoTurnGoesOn, Idle;
    var t := AllRefreshed(s).conversations;
    forall x | x in s.conversations ensures SameQueue(s.conversations[x], t[x]) {
      RefreshedWaits(s, s.conversations[x]);
      SameQueueAfter(s, x);
    }
    if id in s.conversations {
      IdleWhenNoneGoesOn(s, s.conversations[id].workspace);
      assert t[id].workspace == s.conversations[id].workspace by { RefreshedWaits(s, s.conversations[id]); }
    }
    NextInTheSameQueues(s, t, id, i);
  }

  lemma SameQueueAfter(s: Store, x: Id)
    requires x in s.conversations
    ensures SameQueue(s.conversations[x], Refreshed(s, s.conversations[x]))
  {
    hide LeaseFree, Refreshed;
    RefreshedWaits(s, s.conversations[x]);
  }

  lemma NextInTheSameQueues(s: Store, t: Saved, id: Id, i: nat)
    requires t.Keys == s.conversations.Keys && AllQueuedHaveSequences(s.conversations)
    requires forall x :: x in t ==> SameQueue(s.conversations[x], t[x])
    requires id in t ==> (NoTurnGoesOn(s, s.conversations[id].workspace) <==> Idle(t, t[id].workspace))
    ensures IsNext(s, id, i) <==> Eligible(t, id, i)
  {
    hide NoTurnGoesOn, Idle;
    if IsNext(s, id, i) {
      forall x, j | x in t && t[x].workspace == t[id].workspace && j in QueuedAt(t[x]) ensures SequenceAt(t[id], i) <= SequenceAt(t[x], j) {
        assert Waiting(s.conversations[x].messages[j]);
      }
    }
    if Eligible(t, id, i) {
      forall x, j | x in s.conversations && s.conversations[x].workspace == s.conversations[id].workspace
             && 0 <= j < |s.conversations[x].messages| && s.conversations[x].messages[j].status.Queued?
        ensures s.conversations[x].messages[j].sequence.Some?
                && SequenceAt(t[id], i) <= s.conversations[x].messages[j].sequence.value
      {
        assert Waiting(s.conversations[x].messages[j]);
        assert j in QueuedAt(t[x]);
      }
    }
  }

  lemma QueuedHaveSequences(s: Store)
    requires Inv(s)
    ensures AllQueuedHaveSequences(s.conversations)
  {
    assert ConversationsSound(s.conversations);
    hide Inv;
    forall x, j | x in s.conversations && 0 <= j < |s.conversations[x].messages| && Waiting(s.conversations[x].messages[j])
      ensures s.conversations[x].messages[j].sequence.Some?
    {
      QueuedIsUser(s.conversations[x], j);
    }
  }

  lemma IdleWhenNoneGoesOn(s: Store, w: Workspace)
    ensures NoTurnGoesOn(s, w) <==> Idle(AllRefreshed(s).conversations, w)
  {
    hide LeaseFree, Refreshed;
    var t := AllRefreshed(s).conversations;
    forall x | x in s.conversations
      ensures var c, r := s.conversations[x], t[x];
              r.workspace == c.workspace && (r.active.Some? <==> c.active.Some? && !LeaseFree(s, KeyOf(c)))
    {
      RefreshedWaits(s, s.conversations[x]);
      assert t[x] == Refreshed(s, s.conversations[x]);
    }
    if Idle(t, w) {
      forall x | x in s.conversations && s.conversations[x].workspace == w && s.conversations[x].active.Some?
        ensures LeaseFree(s, KeyOf(s.conversations[x]))
      {
        assert t[x].workspace == w;
      }
    }
  }

  // ---------------------------------------------------------------- the pass

  lemma OnlyOneVerdict(a: Attempt, length: nat, free: bool)
    ensures var v, fits := Decision(a, length, free), length <= TURN_CAPACITY;
            && (v.Leave? <==> IsLeft(a, fits, free)) && (v.Launched? <==> IsStarted(a, fits, free))
            && (v.Refused? <==> exists reason :: IsRefused(a, fits, free, reason))
            && forall reason :: IsRefused(a, fits, free, reason) ==> v == Refused(COULD_NOT_START + reason)
  {
    var v, fits := Decision(a, length, free), length <= TURN_CAPACITY;
    forall reason | IsRefused(a, fits, free, reason) ensures v == Refused(COULD_NOT_START + reason) {
      RefusedForIt(a, length, free, reason);
    }
    if v.Refused? {
      var reason := if a.operation.Some? then a.operation.value else if !fits then TOO_LARGE
                    else if a.lease.Some? then a.lease.value else a.launch.value;
      assert IsRefused(a, fits, free, reason);
    }
  }

  lemma RefusedForIt(a: Attempt, length: nat, free: bool, reason: string)
    requires IsRefused(a, length <= TURN_CAPACITY, free, reason)
    ensures Decision(a, length, free) == Refused(COULD_NOT_START + reason)
  {
  }

  lemma AttemptedFares(s: Store, c: Conversation, i: nat, workers: map<Id, Worker>, p: Pass)
    requires i < |c.messages| && Waiting(c.messages[i])
    requires var a := p.attempt(c.messages[i].id);
             Decision(a, p.size(c), LeaseFree(s, KeyOf(c))).Launched? ==> a.session in workers && workers[a.session] == Worker(p.host, a.reply)
    ensures var a := p.attempt(c.messages[i].id);
            NextFares(s, c, i, Attempted(c, i, Decision(a, p.size(c), LeaseFree(s, KeyOf(c))), a, p.now), workers, p)
  {
    hide LeaseFree, Decision, IsLeft, IsRefused, IsStarted;
    var a, free := p.attempt(c.messages[i].id), LeaseFree(s, KeyOf(c));
    var v, fits := Decision(a, p.size(c), free), p.size(c) <= TURN_CAPACITY;
    OnlyOneVerdict(a, p.size(c), free);
    ClaimedHasStarted(c, i, a.session, a.reply, p.now);
    if v.Refused? { NotStartedHasFailed(c, i, v.error); }
  }

  /** After the attempt for it, whatever else the pass does. */
  lemma AttemptFares(s: Store, t: Store, busy: set<Workspace>, c: Conversation, i: nat, p: Pass)
    requires Dispatching(s, t, busy, p) && c.workspace in busy && Inv(s)
    requires Eligible(s.conversations, c.id, i) && s.conversations[c.id] == c
    ensures c.id in t.conversations && NextFares(s, c, i, t.conversations[c.id], t.workers, p)
  {
    hide Inv, LeaseFree, Eligible, Decision, Attempted, NextFares, NamesUnused, LeasesAgree;
    EligibleIsQueued(s.conversations, c.id, i);
    AttemptedFares(s, c, i, t.workers, p);
  }

  lemma ConversationFares(s: Store, id: Id, after: Saved, workers: map<Id, Worker>, p: Pass)
    requires Inv(s) && id in s.conversations && id in after
    requires PumpedOne(AllRefreshed(s), id, after, workers, p)
    requires SamePlaces(s.conversations, AllRefreshed(s).conversations)
    ensures Fares(s, id, after, workers, p)
  {
    hide Inv, LeaseFree, Eligible, Decision, Attempted, Refreshed, ReadAs, NextFares, IsNext, SamePlaces;
    var t := AllRefreshed(s);
    var c := Refreshed(s, s.conversations[id]);
    assert t.conversations[id] == c;
    RefreshedIsRead(s, s.conversations[id]);
    RefreshedLeases(s, KeyOf(c));
    forall i: nat ensures IsNext(s, id, i) <==> Eligible(t.conversations, id, i) {
      NextIsEligible(s, id, i);
    }
    forall i: nat | IsNext(s, id, i) ensures NextFares(s, c, i, after[id], workers, p) {
      EligibleIsQueued(t.conversations, id, i);
      AttemptedFares(s, c, i, workers, p);
    }
  }

  /** What a pumped store looks like, in terms of the store before the pass. */
  lemma PumpedFare(s: Store, after: Saved, workers: map<Id, Worker>, p: Pass)
    requires Inv(s) && Pumped(AllRefreshed(s), after, workers, p)
    ensures AllFare(s, after, workers, p)
  {
    SoundForRefresh(s);
    AllRefreshedIsSound(s);
    hide Inv, AllRefreshed, PumpedOne, Fares, SamePlaces;
    RefreshedKeys(s);
    forall id | id in after ensures Fares(s, id, after, workers, p) {
      ConversationFares(s, id, after, workers, p);
    }
  }

  lemma RefreshedKeys(s: Store)
    ensures AllRefreshed(s).conversations.Keys == s.conversations.Keys
  {
  }

  lemma SoundForRefresh(s: Store)
    requires Inv(s)
    ensures ConversationsSound(s.conversations) && TicketsUnique(s.conversations, s.tickets, s.counter)
  {
  }

  // ---------------------------------------------------------------- a child that outlives its turn

  lemma NextIsUnique(s: Store, id: Id, i: nat, id': Id, i': nat)
    requires Inv(s) && IsNext(s, id, i) && IsNext(s, id', i') && s.conversations[id].workspace == s.conversations[id'].workspace
    ensures id == id' && i == i'
  {
    NextIsEligible(s, id, i);
    NextIsEligible(s, id', i');
    SoundForRefresh(s);
    AllRefreshedIsSound(s);
    hide Inv, Eligible, Refreshed, SamePlaces, NoTurnGoesOn;
    RefreshedWaits(s, s.conversations[id]);
    RefreshedWaits(s, s.conversations[id']);
    EligibleIsUnique(AllRefreshed(s), id, i, id', i');
  }

  lemma ReadKeepsTheQueue(s: Store, c: Conversation, c': Conversation)
    requires ReadAs(s, c, c')
    ensures SameQueue(c, c') && KeyOf(c') == KeyOf(c)
    ensures (c.active.Some? ==> LeaseFree(s, KeyOf(c))) ==> c'.active.None?
  {
    hide LeaseFree;
  }

  /** The conversations of a workspace whose next message is left are as the reading leaves them. */
  lemma WorkspaceIsLeft(s: Store, after: Saved, workers: map<Id, Worker>, p: Pass, id: Id, i: nat, y: Id)
    requires Inv(s) && IsNext(s, id, i) && AllFare(s, after, workers, p)
    requires y in s.conversations && s.conversations[y].workspace == s.conversations[id].workspace
    requires y == id ==> forall c :: ReadAs(s, s.conversations[id], c) && NextFares(s, c, i, after[id], workers, p) ==> after[id] == c
    ensures y in after && ReadAs(s, s.conversations[y], after[y])
    ensures SameQueue(s.conversations[y], after[y]) && KeyOf(after[y]) == KeyOf(s.conversations[y]) && after[y].active.None?
  {
    hide Inv, ReadAs, NextFares, LeaseFree, SameQueue;
    assert y in after;
    var c :| && ReadAs(s, s.conversations[y], c)
             && (forall j: nat :: IsNext(s, y, j) ==> NextFares(s, c, j, after[y], workers, p))
             && ((forall j: nat :: !IsNext(s, y, j)) ==> after[y] == c);
    if y != id {
      forall j: nat ensures !IsNext(s, y, j) {
        if IsNext(s, y, j) { NextIsUnique(s, id, i, y, j); }
      }
    }
    ReadKeepsTheQueue(s, s.conversations[y], after[y]);
  }

  /** The child still holds the lease under which the message's turn would start. */
  ghost predicate HeldByChild(s: Store, x: Id, id: Id) {
    && x in s.children && id in s.conversations
    && Homed(s.conversations, s.homes, x) && LeaseOf(s.conversations, s.homes, x) == KeyOf(s.conversations[id])
  }

  lemma HeldIsNotFree(s: Store, x: Id, id: Id)
    requires HeldByChild(s, x, id)
    ensures !LeaseFree(s, KeyOf(s.conversations[id]))
  {
    assert x in Holders(s);
  }

  /** Nothing but the lease stands in the message's way. */
  predicate IsReady(a: Attempt, fits: bool) {
    a.operation.None? && fits && a.lease.None?
  }

  lemma LeftWhileHeld(s: Store, c: Conversation, i: nat, c': Conversation, workers: map<Id, Worker>, p: Pass)
    requires NextFares(s, c, i, c', workers, p) && !LeaseFree(s, KeyOf(c))
    requires p.attempt(c.messages[i].id).deferred || IsReady(p.attempt(c.messages[i].id), p.size(c) <= TURN_CAPACITY)
    ensures c' == c
  {
    hide HasFailed, HasStarted, LeaseFree, IsRefused, IsStarted;
  }

  /**
   While a process that outlived its turn holds the lease, a pass that finds no other reason against the next message
   leaves it waiting: its file is at most recovered, and it is still the next one for the pass after this.
   */
  lemma WaitsForTheSurvivor(s: Store, s': Store, p: Pass, x: Id, id: Id, i: nat)
    requires Inv(s) && Later(s, s') && s'.children == s.children
    requires IsNext(s, id, i) && HeldByChild(s, x, id) && AllFare(s, s'.conversations, s'.workers, p)
    requires forall c :: ReadAs(s, s.conversations[id], c) && i < |c.messages|
               ==> p.attempt(c.messages[i].id).deferred || IsReady(p.attempt(c.messages[i].id), p.size(c) <= TURN_CAPACITY)
    ensures id in s'.conversations && ReadAs(s, s.conversations[id], s'.conversations[id])
    ensures IsNext(s', id, i) && HeldByChild(s', x, id)
  {
    hide Inv, Later, AllFare, ReadAs, NextFares, LeaseFree, SameQueue, IsRefused, NoTurnGoesOn, IsReady;
    SameFiles(s, s'.conversations, s'.workers, p);
    HeldIsNotFree(s, x, id);
    forall c | ReadAs(s, s.conversations[id], c) && NextFares(s, c, i, s'.conversations[id], s'.workers, p)
      ensures s'.conversations[id] == c
    {
      ReadKeepsTheQueue(s, s.conversations[id], c);
      FaresInRange(s, c, i, s'.conversations[id], s'.workers, p);
      LeftWhileHeld(s, c, i, s'.conversations[id], s'.workers, p);
    }
    forall y | y in s.conversations && s.conversations[y].workspace == s.conversations[id].workspace
      ensures y in s'.conversations && ReadAs(s, s.conversations[y], s'.conversations[y])
      ensures SameQueue(s.conversations[y], s'.conversations[y]) && KeyOf(s'.conversations[y]) == KeyOf(s.conversations[y])
      ensures s'.conversations[y].active.None?
    {
      WorkspaceIsLeft(s, s'.conversations, s'.workers, p, id, i, y);
    }
    PlacesStay(s, s', p);
    StillNext(s, s', id, i);
    StillHeld(s, s', x, id);
  }

  lemma FaresInRange(s: Store, c: Conversation, i: nat, c': Conversation, workers: map<Id, Worker>, p: Pass)
    requires NextFares(s, c, i, c', workers, p)
    ensures i < |c.messages|
  {
  }

  lemma SameFiles(s: Store, after: Saved, workers: map<Id, Worker>, p: Pass)
    requires AllFare(s, after, workers, p)
    ensures after.Keys == s.conversations.Keys
  {
    hide Fares;
  }

  lemma PlacesStay(s: Store, s': Store, p: Pass)
    requires Later(s, s') && AllFare(s, s'.conversations, s'.workers, p)
    ensures forall y :: y in s'.conversations ==> y in s.conversations && KeyOf(s'.conversations[y]) == KeyOf(s.conversations[y])
    ensures forall x :: x in s.homes ==> x in s'.homes && s'.homes[x] == s.homes[x]
  {
    hide Fares;
    forall y | y in s'.conversations ensures y in s.conversations && KeyOf(s'.conversations[y]) == KeyOf(s.conversations[y]) {
      assert Evolves(s.conversations[y], s'.conversations[y]);
    }
  }

  lemma StillNext(s: Store, s': Store, id: Id, i: nat)
    requires IsNext(s, id, i) && id in s'.conversations
    requires forall y :: y in s'.conversations ==> y in s.conversations && KeyOf(s'.conversations[y]) == KeyOf(s.conversations[y])
    requires forall y :: y in s'.conversations && s.conversations[y].workspace == s.conversations[id].workspace
               ==> SameQueue(s.conversations[y], s'.conversations[y]) && s'.conversations[y].active.None?
    ensures IsNext(s', id, i)
  {
    hide LeaseFree;
    assert SameQueue(s.conversations[id], s'.conversations[id]);
    forall x, j | x in s'.conversations && s'.conversations[x].workspace == s'.conversations[id].workspace
           && 0 <= j < |s'.conversations[x].messages| && s'.conversations[x].messages[j].status.Queued?
      ensures s'.conversations[x].messages[j].sequence.Some?
              && s.conversations[id].messages[i].sequence.value <= s'.conversations[x].messages[j].sequence.value
    {
      assert KeyOf(s'.conversations[x]) == KeyOf(s.conversations[x]);
      assert KeyOf(s'.conversations[id]) == KeyOf(s.conversations[id]);
      assert Waiting(s'.conversations[x].messages[j]);
      assert s.conversations[x].messages[j].status.Queued?;
    }
  }

  lemma StillHeld(s: Store, s': Store, x: Id, id: Id)
    requires HeldByChild(s, x, id) && s'.children == s.children
    requires forall y :: y in s.conversations ==> y in s'.conversations && KeyOf(s'.conversations[y]) == KeyOf(s.conversations[y])
    requires forall y :: y in s.homes ==> y in s'.homes && s'.homes[y] == s.homes[y]
    ensures HeldByChild(s', x, id)
  {
  }

  /** The first pass after the last process of the earlier turn has gone starts the message, if nothing else is against it. */
  lemma StartsAfterTheSurvivor(s: Store, after: Saved, workers: map<Id, Worker>, p: Pass, x: Id, id: Id, i: nat)
    requires Inv(s) && IsNext(s, id, i) && HeldByChild(s, x, id) && x !in s.workers
    requires AllFare(s.(children := s.children - {x}), after, workers, p)
    requires forall c :: ReadAs(s.(children := s.children - {x}), s.conversations[id], c) && i < |c.messages|
               ==> IsStarted(p.attempt(c.messages[i].id), p.size(c) <= TURN_CAPACITY, true)
    ensures id in after && i < |after[id].messages| && after[id].messages[i].status.Running?
    ensures after[id].active.Some? && after[id].messages[i].session == after[id].active && after[id].active.value in workers
  {
    hide Inv, ReadAs, LeaseFree, IsStarted, IsNext, NextFares, AllFare;
    var t := s.(children := s.children - {x});
    OnlyTheChildHolds(s, x, id);
    ExitKeepsNext(s, x, id, i);
    var c := FaresAsNext(t, after, workers, p, id, i);
    ReadKeepsTheQueue(t, t.conversations[id], c);
    FaresInRange(t, c, i, after[id], workers, p);
    StartedIsRunning(t, c, i, after[id], workers, p);
  }

  lemma FaresAsNext(s: Store, after: Saved, workers: map<Id, Worker>, p: Pass, id: Id, i: nat) returns (c: Conversation)
    requires IsNext(s, id, i) && AllFare(s, after, workers, p)
    ensures id in s.conversations && id in after && ReadAs(s, s.conversations[id], c) && NextFares(s, c, i, after[id], workers, p)
  {
    assert id in s.conversations;
    hide ReadAs, IsNext, NextFares;
    assert Fares(s, id, after, workers, p);
    c :| ReadAs(s, s.conversations[id], c) && (forall j: nat :: IsNext(s, id, j) ==> NextFares(s, c, j, after[id], workers, p));
  }

  lemma StartedIsRunning(s: Store, c: Conversation, i: nat, c': Conversation, workers: map<Id, Worker>, p: Pass)
    requires NextFares(s, c, i, c', workers, p) && LeaseFree(s, KeyOf(c))
    requires IsStarted(p.attempt(c.messages[i].id), p.size(c) <= TURN_CAPACITY, true)
    ensures i < |c'.messages| && c'.messages[i].status.Running? && c'.active.Some? && c'.messages[i].session == c'.active
    ensures c'.active.value in workers
  {
    hide LeaseFree, IsRefused, IsLeft, HasFailed;
  }

  lemma OnlyTheChildHolds(s: Store, x: Id, id: Id)
    requires Inv(s) && HeldByChild(s, x, id) && x !in s.workers
    ensures LeaseFree(s.(children := s.children - {x}), KeyOf(s.conversations[id]))
  {
    assert LeasesExclusive(s.conversations, s.homes, Holders(s), s.others);
    hide Inv;
    var t := s.(children := s.children - {x});
    assert x in Holders(s) && Holders(t) <= Holders(s) && x !in Holders(t);
  }

  lemma ExitKeepsNext(s: Store, x: Id, id: Id, i: nat)
    requires IsNext(s, id, i)
    ensures IsNext(s.(children := s.children - {x}), id, i)
  {
    var t := s.(children := s.children - {x});
    forall y | y in s.conversations && s.conversations[y].workspace == s.conversations[id].workspace && s.conversations[y].active.Some?
      ensures LeaseFree(t, KeyOf(s.conversations[y]))
    {
      assert LeaseFree(s, KeyOf(s.conversations[y]));
      assert Holders(t) <= Holders(s);
    }
  }
}
