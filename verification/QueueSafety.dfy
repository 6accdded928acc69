/**
 Inv is inductive: every step of QueueProtocol keeps every part of it. Each part reads only
 some fields of the store, so each lemma is about one part and the fields it reads.
 */
module QueueSafety {
  import opened Options
  import opened Conversations
  import opened ConversationEdits
  import opened QueueProtocol

  // ---------------------------------------------------------------- edits that settle a conversation

  /** c' may replace the conversation with its id: it is a sound, settled version of it. */
  ghost predicate Settled(cs: Saved, c': Conversation) {
    c'.id in cs && Settles(cs[c'.id], c') && Sound(c')
  }

  lemma SettlingKeepsSound(cs: Saved, c': Conversation)
    requires ConversationsSound(cs) && Settled(cs, c')
    ensures ConversationsSound(cs[c'.id := c'])
  {
    hide Sound, Settles;
  }

  lemma SettlingKeepsTickets(cs: Saved, c': Conversation, tickets: map<nat, Slot>, counter: nat)
    requires TicketsUnique(cs, tickets, counter) && Settled(cs, c')
    ensures TicketsUnique(cs[c'.id := c'], tickets, counter)
  {
    hide Sound;
    assert forall i :: 0 <= i < |c'.messages| ==> Follows(cs[c'.id].messages[i], c'.messages[i]);
  }

  lemma SettlingKeepsSessions(cs: Saved, c': Conversation, homes: map<Id, Id>, issued: Names)
    requires SessionsHomed(cs, homes, issued) && Settled(cs, c')
    ensures SessionsHomed(cs[c'.id := c'], homes, issued)
  {
    hide Sound;
  }

  lemma SettlingKeepsIds(cs: Saved, c': Conversation, issued: Names)
    requires IdsIssued(cs, issued) && Settled(cs, c')
    ensures IdsIssued(cs[c'.id := c'], issued)
  {
    hide Sound;
    assert forall i :: 0 <= i < |c'.messages| ==> Follows(cs[c'.id].messages[i], c'.messages[i]);
  }

  lemma SettlingKeepsTurnsApart(cs: Saved, c': Conversation)
    requires OneTurnPerWorkspace(cs) && Settled(cs, c')
    ensures OneTurnPerWorkspace(cs[c'.id := c'])
  {
    hide Sound;
  }

  lemma SettlingKeepsLeases(cs: Saved, c': Conversation, homes: map<Id, Id>, holders: set<Id>, others: set<Key>)
    requires LeasesExclusive(cs, homes, holders, others) && Settled(cs, c')
    ensures LeasesExclusive(cs[c'.id := c'], homes, holders, others)
  {
    hide Sound;
    assert forall x :: Homed(cs[c'.id := c'], homes, x) ==> Homed(cs, homes, x) && LeaseOf(cs[c'.id := c'], homes, x) == LeaseOf(cs, homes, x);
  }

  lemma SettlingKeepsOrder(cs: Saved, c': Conversation, tickets: map<nat, Slot>, starts: seq<Start>)
    requires StartsInOrder(cs, tickets, starts) && Settled(cs, c')
    ensures StartsInOrder(cs[c'.id := c'], tickets, starts)
  {
    hide Sound;
    forall k | k in QueuedAt(c') ensures k in QueuedAt(cs[c'.id]) && SequenceAt(c', k) == SequenceAt(cs[c'.id], k) {
      assert Follows(cs[c'.id].messages[k], c'.messages[k]);
    }
  }

  lemma SettlingKeepsBounds(cs: Saved, c': Conversation)
    requires QueuesBounded(cs) && Settled(cs, c')
    ensures QueuesBounded(cs[c'.id := c'])
  {
    hide Sound;
    var cs' := cs[c'.id := c'];
    forall w ensures |QueuedIn(cs', w)| <= MAX_QUEUED_PER_WORKSPACE {
      SubsetSize(QueuedIn(cs', w), QueuedIn(cs, w));
    }
  }

  /** The part of Inv that has nothing to do with leases, workers and starts. */
  ghost predicate BooksBalance(s: Store) {
    && ConversationsSound(s.conversations)
    && TicketsUnique(s.conversations, s.tickets, s.counter)
    && SessionsHomed(s.conversations, s.homes, s.issued)
    && IdsIssued(s.conversations, s.issued)
    && OneTurnPerWorkspace(s.conversations)
    && QueuesBounded(s.conversations)
  }

  lemma SettlingKeepsBooks(s: Store, c': Conversation)
    requires BooksBalance(s) && Settled(s.conversations, c')
    ensures BooksBalance(Put(s, c'.id, c'))
  {
    hide Settled, ConversationsSound, TicketsUnique, SessionsHomed, IdsIssued, OneTurnPerWorkspace, QueuesBounded;
    SettlingKeepsSound(s.conversations, c');
    SettlingKeepsTickets(s.conversations, c', s.tickets, s.counter);
    SettlingKeepsSessions(s.conversations, c', s.homes, s.issued);
    SettlingKeepsIds(s.conversations, c', s.issued);
    SettlingKeepsTurnsApart(s.conversations, c');
    SettlingKeepsBounds(s.conversations, c');
  }

  // ---------------------------------------------------------------- workers and children under an edit

  lemma WorkerIsTheActiveTurn(cs: Saved, homes: map<Id, Id>, workers: map<Id, Worker>, x: Id)
    requires WorkersOwnTheirTurn(cs, homes, workers) && x in workers
    ensures Homed(cs, homes, x) && cs[homes[x]].active == Some(x)
  {
    assert RunsTurn(cs[homes[x]], x, workers[x].reply);
  }

  lemma RunningTurnCarriesOver(c: Conversation, c': Conversation, session: Id, reply: Id)
    requires RunsTurn(c, session, reply) && c'.active == c.active && Evolves(c, c')
    requires forall u: nat, a: nat :: TurnAt(c, u, a, session) ==> TurnAt(c', u, a, session)
    ensures RunsTurn(c', session, reply)
  {
    var u: nat, a: nat :| TurnAt(c, u, a, session) && c.messages[a].id == reply;
    assert TurnAt(c', u, a, session) && Follows(c.messages[a], c'.messages[a]);
  }

  lemma WorkersSurviveEdit(cs: Saved, homes: map<Id, Id>, workers: map<Id, Worker>, id: Id, c': Conversation)
    requires WorkersOwnTheirTurn(cs, homes, workers) && id in cs
    requires forall x :: x in workers && homes[x] == id && RunsTurn(cs[id], x, workers[x].reply) ==> RunsTurn(c', x, workers[x].reply)
    ensures WorkersOwnTheirTurn(cs[id := c'], homes, workers)
  {
    hide RunsTurn;
  }

  lemma ChildrenSurviveEdit(cs: Saved, homes: map<Id, Id>, children: set<Id>, finished: set<Id>, id: Id, c': Conversation)
    requires ChildrenAccounted(cs, homes, children, finished) && id in cs
    requires c'.active == cs[id].active
             || (c'.active.None? && forall x :: x in children && Homed(cs, homes, x) && homes[x] == id ==> x in finished)
    ensures ChildrenAccounted(cs[id := c'], homes, children, finished)
  {
  }

  /** Everything in Inv at once, for an edit that keeps the conversation's active turn. */
  lemma QuietEditKeepsInv(s: Store, c': Conversation)
    requires Inv(s) && Settled(s.conversations, c') && c'.active == s.conversations[c'.id].active
    requires forall x, r :: RunsTurn(s.conversations[c'.id], x, r) ==> RunsTurn(c', x, r)
    ensures Inv(Put(s, c'.id, c'))
  {
    hide ConversationsSound, TicketsUnique, SessionsHomed, IdsIssued, OneTurnPerWorkspace, QueuesBounded,
         WorkersOwnTheirTurn, ChildrenAccounted, LeasesExclusive, StartsInOrder, RunsTurn, Settles, Sound;
    SettlingKeepsBooks(s, c');
    SettlingKeepsLeases(s.conversations, c', s.homes, Holders(s), s.others);
    SettlingKeepsOrder(s.conversations, c', s.tickets, s.starts);
    WorkersSurviveEdit(s.conversations, s.homes, s.workers, c'.id, c');
    ChildrenSurviveEdit(s.conversations, s.homes, s.children, s.finished, c'.id, c');
  }

  lemma ChangeKeepsInv(s: Store, id: Id, message: Id, request: Id, expected: string, edit: Option<string>)
    requires Inv(s) && id in s.conversations
    ensures Inv(AfterChange(s, id, Mutate(s.conversations[id], message, request, expected, edit)))
  {
    hide TicketsUnique, SessionsHomed, IdsIssued, OneTurnPerWorkspace, QueuesBounded,
         WorkersOwnTheirTurn, ChildrenAccounted, LeasesExclusive, StartsInOrder, Mutate, Sound, TurnAt, Settles;
    var c := s.conversations[id];
    var r := Mutate(c, message, request, expected, edit);
    if r.Applied? {
      MutatedIsSound(c, message, request, expected, edit);
      SettledKeepsRuns(c, r.conversation);
      QuietEditKeepsInv(s, r.conversation);
    }
  }

  lemma SettledKeepsRuns(c: Conversation, c': Conversation)
    requires Settles(c, c') && c'.active == c.active
    requires forall u: nat, a: nat, x :: TurnAt(c, u, a, x) ==> TurnAt(c', u, a, x)
    ensures forall x, r :: RunsTurn(c, x, r) ==> RunsTurn(c', x, r)
    ensures c'.id == c.id
  {
    forall x, r | RunsTurn(c, x, r) ensures RunsTurn(c', x, r) {
      RunningTurnCarriesOver(c, c', x, r);
    }
  }

  lemma ProgressKeepsInv(s: Store, session: Id, update: Option<string>)
    requires Inv(s) && CanReport(s, session)
    ensures Inv(AfterProgress(s, session, update))
  {
    hide TicketsUnique, SessionsHomed, IdsIssued, OneTurnPerWorkspace, QueuesBounded,
         ChildrenAccounted, LeasesExclusive, StartsInOrder, Sound, Progressed, Settles;
    var c, reply := s.conversations[s.homes[session]], s.workers[session].reply;
    assert RunsTurn(c, session, reply);
    var u: nat, a: nat :| TurnAt(c, u, a, session) && c.messages[a].id == reply;
    ProgressedIsSound(c, u, a, session, update);
    var c' := Progressed(c, reply, session, update);
    OnlyOneTurnRuns(c, c', u, a, session);
    QuietEditKeepsInv(s, c');
  }

  lemma OnlyOneTurnRuns(c: Conversation, c': Conversation, u: nat, a: nat, session: Id)
    requires c.active == Some(session) && TurnAt(c, u, a, session) && TurnAt(c', u, a, session)
    requires Settles(c, c') && c'.active == c.active
    ensures forall x, r :: RunsTurn(c, x, r) ==> RunsTurn(c', x, r)
    ensures c'.id == c.id
  {
    forall x, r | RunsTurn(c, x, r) ensures RunsTurn(c', x, r) {
      var v: nat, b: nat :| TurnAt(c, v, b, x) && c.messages[b].id == r;
      assert v == u && b == a;
      assert Follows(c.messages[a], c'.messages[a]);
    }
  }

  // ---------------------------------------------------------------- edits that end a turn

  /** Everything in Inv at once, for an edit that leaves the conversation without a turn. */
  lemma EndingEditKeepsInv(s: Store, s': Store, c': Conversation)
    requires Inv(s) && Settled(s.conversations, c') && c'.active.None?
    requires s' == Put(s, c'.id, c').(workers := s'.workers, finished := s'.finished)
    requires forall x :: x in s'.workers ==> x in s.workers && s'.workers[x] == s.workers[x] && s.homes[x] != c'.id
    requires forall x :: x in s.children && Homed(s.conversations, s.homes, x) && s.homes[x] == c'.id ==> x in s'.finished
    requires s.finished <= s'.finished
    requires forall x :: x in s'.finished && x !in s.finished ==> x in s.homes && s.homes[x] == c'.id
    ensures Inv(s')
  {
    hide ConversationsSound, TicketsUnique, SessionsHomed, IdsIssued, OneTurnPerWorkspace, QueuesBounded,
         StartsInOrder, RunsTurn, Settles, Sound, LeasesExclusive;
    SettlingKeepsBooks(s, c');
    SettlingKeepsLeases(s.conversations, c', s.homes, Holders(s), s.others);
    FewerHoldersKeepLeases(s'.conversations, s.homes, Holders(s), Holders(s'), s.others);
    SettlingKeepsOrder(s.conversations, c', s.tickets, s.starts);
  }

  lemma FewerHoldersKeepLeases(cs: Saved, homes: map<Id, Id>, holders: set<Id>, fewer: set<Id>, others: set<Key>)
    requires LeasesExclusive(cs, homes, holders, others) && fewer <= holders
    ensures LeasesExclusive(cs, homes, fewer, others)
  {
  }

  lemma NoHolderOf(cs: Saved, homes: map<Id, Id>, holders: set<Id>, id: Id)
    requires id in cs && Unheld(cs, homes, holders, KeyOf(cs[id]))
    ensures forall x :: x in holders && Homed(cs, homes, x) ==> homes[x] != id
  {
    forall x | x in holders && Homed(cs, homes, x) ensures homes[x] != id {
      assert LeaseOf(cs, homes, x) != KeyOf(cs[id]);
    }
  }

  lemma RecoverKeepsInv(s: Store, id: Id)
    requires Inv(s) && CanRecover(s, id)
    ensures Inv(Put(s, id, Recovered(s.conversations[id])))
  {
    hide TicketsUnique, SessionsHomed, IdsIssued, OneTurnPerWorkspace, QueuesBounded,
         ChildrenAccounted, LeasesExclusive, StartsInOrder, RunsTurn, Sound, Unheld;
    var c' := Recovered(s.conversations[id]);
    RecoveredIsSound(s.conversations[id]);
    NoHolderOf(s.conversations, s.homes, Holders(s), id);
    EndingEditKeepsInv(s, Put(s, id, c'), c');
  }

  lemma FinishKeepsInv(s: Store, session: Id, output: Option<Output>, interrupted: bool, failure: Option<string>)
    requires Inv(s) && CanReport(s, session)
    ensures Inv(AfterFinish(s, session, output, interrupted, failure))
  {
    hide TicketsUnique, SessionsHomed, IdsIssued, OneTurnPerWorkspace, QueuesBounded,
         LeasesExclusive, StartsInOrder, Sound, Finished, Settles;
    var s' := AfterFinish(s, session, output, interrupted, failure);
    var id := s.homes[session];
    var c, reply := s.conversations[id], s.workers[session].reply;
    assert RunsTurn(c, session, reply);
    var u: nat, a: nat :| TurnAt(c, u, a, session) && c.messages[a].id == reply;
    FinishedIsSound(c, u, a, session, output, interrupted, failure);
    var c' := Finished(c, reply, session, output, Outcome(interrupted, failure), failure);
    SettledKeepsId(c, c');
    forall x | x in s'.workers ensures s.homes[x] != id {
      WorkerIsTheActiveTurn(s.conversations, s.homes, s.workers, x);
    }
    EndingEditKeepsInv(s, s', c');
  }

  lemma SettledKeepsId(c: Conversation, c': Conversation)
    requires Settles(c, c')
    ensures c'.id == c.id
  {
  }

  // ---------------------------------------------------------------- leaving the queue

  lemma QueuedHasTicket(cs: Saved, tickets: map<nat, Slot>, counter: nat, id: Id, index: nat)
    requires ConversationsSound(cs) && TicketsUnique(cs, tickets, counter) && id in cs && index in QueuedAt(cs[id])
    ensures SequenceAt(cs[id], index) in tickets && tickets[SequenceAt(cs[id], index)] == Slot(id, index)
  {
    QueuedIsUser(cs[id], index);
  }

  /** Starting or refusing the eligible message keeps the history in order. */
  lemma StartKeepsOrder(cs: Saved, cs': Saved, tickets: map<nat, Slot>, counter: nat, starts: seq<Start>, id: Id,
                        index: nat, launched: bool)
    requires ConversationsSound(cs) && TicketsUnique(cs, tickets, counter) && StartsInOrder(cs, tickets, starts)
    requires Eligible(cs, id, index) && id in cs' && cs' == cs[id := cs'[id]]
    requires cs'[id].workspace == cs[id].workspace && QueuedAt(cs'[id]) <= QueuedAt(cs[id]) - {index}
    requires forall k :: k in QueuedAt(cs'[id]) ==> SequenceAt(cs'[id], k) == SequenceAt(cs[id], k)
    ensures StartsInOrder(cs', tickets, starts + [Start(cs[id].workspace, SequenceAt(cs[id], index), launched)])
  {
    hide ConversationsSound, TicketsUnique;
    var q := SequenceAt(cs[id], index);
    QueuedHasTicket(cs, tickets, counter, id, index);
    forall x, k | x in cs' && k in QueuedAt(cs'[x]) && cs'[x].workspace == cs[id].workspace
      ensures q < SequenceAt(cs'[x], k)
    {
      assert k in QueuedAt(cs[x]);
      QueuedHasTicket(cs, tickets, counter, x, k);
    }
  }

  lemma SmallerQueuesStayBounded(cs: Saved, cs': Saved, id: Id)
    requires QueuesBounded(cs) && id in cs && id in cs' && cs' == cs[id := cs'[id]]
    requires cs'[id].workspace == cs[id].workspace && QueuedAt(cs'[id]) <= QueuedAt(cs[id])
    ensures QueuesBounded(cs')
  {
    hide QueuedAt;
    forall w ensures |QueuedIn(cs', w)| <= MAX_QUEUED_PER_WORKSPACE {
      SubsetSize(QueuedIn(cs', w), QueuedIn(cs, w));
    }
  }

  lemma SettledQueue(c: Conversation, c': Conversation)
    requires Settles(c, c')
    ensures QueuedAt(c') <= QueuedAt(c) && c'.workspace == c.workspace && c'.id == c.id
    ensures forall k :: k in QueuedAt(c') ==> SequenceAt(c', k) == SequenceAt(c, k)
  {
    forall k | k in QueuedAt(c') ensures SequenceAt(c', k) == SequenceAt(c, k) {
      assert Follows(c.messages[k], c'.messages[k]);
    }
  }

  lemma IdleHasNoWorker(cs: Saved, homes: map<Id, Id>, workers: map<Id, Worker>, id: Id)
    requires WorkersOwnTheirTurn(cs, homes, workers) && id in cs && cs[id].active.None?
    ensures forall x :: x in workers ==> homes[x] != id
  {
    forall x | x in workers ensures homes[x] != id {
      WorkerIsTheActiveTurn(cs, homes, workers, x);
    }
  }

  lemma RefuseKeepsInv(s: Store, id: Id, index: nat, error: string)
    requires Inv(s) && Eligible(s.conversations, id, index)
    ensures Inv(AfterRefuse(s, id, index, error))
  {
    hide TicketsUnique, SessionsHomed, IdsIssued, OneTurnPerWorkspace, QueuesBounded, WorkersOwnTheirTurn,
         ChildrenAccounted, LeasesExclusive, StartsInOrder, Sound, NotStarted, Settles, RunsTurn;
    var s' := AfterRefuse(s, id, index, error);
    var c := s.conversations[id];
    var c' := NotStarted(c, index, error);
    NotStartedIsSound(c, index, error);
    SettledQueue(c, c');
    SettlingKeepsBooks(s, c');
    SettlingKeepsLeases(s.conversations, c', s.homes, Holders(s), s.others);
    StartKeepsOrder(s.conversations, s'.conversations, s.tickets, s.counter, s.starts, id, index, false);
    IdleHasNoWorker(s.conversations, s.homes, s.workers, id);
    WorkersSurviveEdit(s.conversations, s.homes, s.workers, id, c');
    SettledActive(c, c');
    ChildrenSurviveEdit(s.conversations, s.homes, s.children, s.finished, id, c');
  }

  lemma SettledActive(c: Conversation, c': Conversation)
    requires Settles(c, c')
    ensures c.active.None? ==> c'.active.None?
  {
  }

  // ---------------------------------------------------------------- a new queued message

  lemma EnqueueIsSound(cs: Saved, tickets: map<nat, Slot>, counter: nat, issued: Names,
                       id: Id, message: Id, request: Id, body: string, now: int)
    requires ConversationsSound(cs) && TicketsUnique(cs, tickets, counter) && IdsIssued(cs, issued) && id in cs
    requires |cs[id].messages| + |QueuedAt(cs[id])| < MAX_TURN_SLOTS
    requires forall i :: 0 <= i < |cs[id].messages| ==> !Asked(cs[id].messages[i], request)
    requires message !in issued && counter !in tickets
    ensures var c, c' := cs[id], Enqueued(cs[id], NewRequest(message, request, body, counter, now));
            && Sound(c') && Evolves(c, c') && QueuedAt(c') == QueuedAt(c) + {|c.messages|} && c'.id == c.id
            && forall u: nat, a: nat, x :: TurnAt(c, u, a, x) ==> TurnAt(c', u, a, x)
  {
    hide Sound;
    var c := cs[id];
    forall i | 0 <= i < |c.messages| && c.messages[i].sequence.Some? ensures c.messages[i].sequence.value < counter {
      assert c.messages[i].sequence.value in tickets;
    }
    EnqueuedIsSound(c, message, request, body, counter, now);
  }

  lemma EnqueueKeepsOrder(cs: Saved, tickets: map<nat, Slot>, counter: nat, starts: seq<Start>, id: Id, c': Conversation)
    requires StartsInOrder(cs, tickets, starts) && id in cs && counter !in tickets
    requires forall q :: q in tickets ==> q <= counter
    requires c'.workspace == cs[id].workspace && QueuedAt(c') == QueuedAt(cs[id]) + {|cs[id].messages|}
    requires |c'.messages| == |cs[id].messages| + 1 && c'.messages[..|cs[id].messages|] == cs[id].messages
    requires SequenceAt(c', |cs[id].messages|) == counter
    ensures StartsInOrder(cs[id := c'], tickets[counter := Slot(id, |cs[id].messages|)], starts)
  {
    hide QueuedAt;
    forall k | k in QueuedAt(cs[id]) && k < |cs[id].messages| ensures SequenceAt(c', k) == SequenceAt(cs[id], k) {
      assert c'.messages[k] == c'.messages[..|cs[id].messages|][k];
    }
    forall i | 0 <= i < |starts| ensures starts[i].sequence < counter {
      assert starts[i].sequence in tickets;
    }
    assert forall k :: k in QueuedAt(cs[id]) ==> k < |cs[id].messages| by { QueuedInRange(cs[id]); }
  }

  lemma QueuedInRange(c: Conversation)
    ensures forall k :: k in QueuedAt(c) ==> k < |c.messages|
  {
  }

  lemma EnqueueKeepsBounds(cs: Saved, id: Id, c': Conversation)
    requires QueuesBounded(cs) && id in cs && |QueuedIn(cs, cs[id].workspace)| < MAX_QUEUED_PER_WORKSPACE
    requires c'.workspace == cs[id].workspace && QueuedAt(c') == QueuedAt(cs[id]) + {|cs[id].messages|}
    ensures QueuesBounded(cs[id := c'])
  {
    hide QueuedAt;
    var cs' := cs[id := c'];
    var slot := Slot(id, |cs[id].messages|);
    forall w ensures |QueuedIn(cs', w)| <= MAX_QUEUED_PER_WORKSPACE {
      if w == c'.workspace {
        SubsetSize(QueuedIn(cs', w), QueuedIn(cs, w) + {slot});
      } else {
        SubsetSize(QueuedIn(cs', w), QueuedIn(cs, w));
      }
    }
  }

  lemma EnqueueKeepsTickets(s: Store, id: Id, message: Id, request: Id, body: string, now: int)
    requires TicketsUnique(s.conversations, s.tickets, s.counter) && CanEnqueue(s, id, message, request)
    ensures var s' := AfterEnqueue(s, id, message, request, body, now); TicketsUnique(s'.conversations, s'.tickets, s'.counter)
  {
    var c' := AfterEnqueue(s, id, message, request, body, now).conversations[id];
    assert forall i :: 0 <= i < |s.conversations[id].messages| ==> c'.messages[i] == s.conversations[id].messages[i];
  }

  lemma EnqueueKeepsSessions(s: Store, id: Id, message: Id, request: Id, body: string, now: int)
    requires SessionsHomed(s.conversations, s.homes, s.issued) && IdsIssued(s.conversations, s.issued)
    requires id in s.conversations && message !in s.issued
    ensures var s' := AfterEnqueue(s, id, message, request, body, now);
            SessionsHomed(s'.conversations, s'.homes, s'.issued) && IdsIssued(s'.conversations, s'.issued)
  {
    var c' := AfterEnqueue(s, id, message, request, body, now).conversations[id];
    assert forall i :: 0 <= i < |s.conversations[id].messages| ==> c'.messages[i] == s.conversations[id].messages[i];
  }

  lemma EnqueueKeepsLeases(cs: Saved, homes: map<Id, Id>, holders: set<Id>, others: set<Key>, id: Id, c': Conversation)
    requires LeasesExclusive(cs, homes, holders, others) && id in cs && KeyOf(c') == KeyOf(cs[id])
    ensures LeasesExclusive(cs[id := c'], homes, holders, others)
  {
    assert forall x :: Homed(cs[id := c'], homes, x) ==> Homed(cs, homes, x) && LeaseOf(cs[id := c'], homes, x) == LeaseOf(cs, homes, x);
  }

  lemma EnqueueKeepsInv(s: Store, id: Id, message: Id, request: Id, body: string, now: int)
    requires Inv(s) && CanEnqueue(s, id, message, request)
    ensures Inv(AfterEnqueue(s, id, message, request, body, now))
  {
    hide SessionsHomed, IdsIssued, QueuesBounded, ChildrenAccounted, LeasesExclusive, StartsInOrder, Sound, RunsTurn, TurnAt;
    var c := s.conversations[id];
    var c' := Enqueued(c, NewRequest(message, request, body, s.counter, now));
    EnqueueIsSound(s.conversations, s.tickets, s.counter, s.issued, id, message, request, body, now);
    EnqueueKeepsTickets(s, id, message, request, body, now);
    hide TicketsUnique;
    EnqueueKeepsSessions(s, id, message, request, body, now);
    EnqueueKeepsOrder(s.conversations, s.tickets, s.counter, s.starts, id, c');
    EnqueueKeepsBounds(s.conversations, id, c');
    EnqueueKeepsLeases(s.conversations, s.homes, Holders(s), s.others, id, c');
    forall x | x in s.workers && s.homes[x] == id && RunsTurn(c, x, s.workers[x].reply) ensures RunsTurn(c', x, s.workers[x].reply) {
      RunningTurnCarriesOver(c, c', x, s.workers[x].reply);
    }
    WorkersSurviveEdit(s.conversations, s.homes, s.workers, id, c');
    ChildrenSurviveEdit(s.conversations, s.homes, s.children, s.finished, id, c');
  }

  // ---------------------------------------------------------------- a claimed turn

  lemma ClaimIsSound(cs: Saved, homes: map<Id, Id>, issued: Names, id: Id, index: nat, session: Id, reply: Id, now: int)
    requires ConversationsSound(cs) && SessionsHomed(cs, homes, issued) && IdsIssued(cs, issued)
    requires Eligible(cs, id, index) && session !in issued && reply !in issued
    ensures var c, c' := cs[id], Claimed(cs[id], index, session, reply, now);
            && Sound(c') && Evolves(c, c') && QueuedAt(c') == QueuedAt(c) - {index} && c'.id == c.id
            && RunsTurn(c', session, reply)
  {
    hide Sound;
    var c := cs[id];
    assert session !in homes;
    forall i | 0 <= i < |c.messages| ensures c.messages[i].id != reply && c.messages[i].session != Some(session) {
    }
    ClaimedIsSound(c, index, session, reply, now);
    assert Claimed(c, index, session, reply, now).messages[|c.messages|].id == reply;
  }

  lemma ClaimedMessages(c: Conversation, index: nat, session: Id, reply: Id, now: int)
    requires index < |c.messages|
    ensures var c' := Claimed(c, index, session, reply, now);
            && |c'.messages| == |c.messages| + 1
            && (forall i :: 0 <= i < |c.messages| && i != index ==> c'.messages[i] == c.messages[i])
            && c'.messages[index].id == c.messages[index].id && c'.messages[index].sequence == c.messages[index].sequence
            && c'.messages[index].session == Some(session)
            && c'.messages[|c.messages|] == NewReply(reply, c.messages[index].request, session, now)
            && c'.active == Some(session) && KeyOf(c') == KeyOf(c)
  {
  }

  lemma ClaimKeepsBooks(cs: Saved, tickets: map<nat, Slot>, counter: nat, homes: map<Id, Id>, issued: Names,
                        id: Id, index: nat, session: Id, reply: Id, now: int)
    requires TicketsUnique(cs, tickets, counter) && SessionsHomed(cs, homes, issued) && IdsIssued(cs, issued)
    requires id in cs && index < |cs[id].messages| && cs[id].messages[index].session.None?
    requires session !in issued && reply !in issued && session != reply
    ensures var cs' := cs[id := Claimed(cs[id], index, session, reply, now)];
            && TicketsUnique(cs', tickets, counter)
            && SessionsHomed(cs', homes[session := id], issued[session := None][reply := Some(Slot(id, |cs[id].messages|))])
            && IdsIssued(cs', issued[session := None][reply := Some(Slot(id, |cs[id].messages|))])
  {
    ClaimedMessages(cs[id], index, session, reply, now);
    assert session !in homes;
    hide Claimed;
  }

  lemma ClaimKeepsTurns(cs: Saved, homes: map<Id, Id>, workers: map<Id, Worker>, children: set<Id>, finished: set<Id>,
                        host: nat, id: Id, c': Conversation, session: Id, reply: Id)
    requires OneTurnPerWorkspace(cs) && WorkersOwnTheirTurn(cs, homes, workers) && ChildrenAccounted(cs, homes, children, finished)
    requires id in cs && Idle(cs, cs[id].workspace) && c'.workspace == cs[id].workspace && RunsTurn(c', session, reply)
    requires session !in homes
    ensures OneTurnPerWorkspace(cs[id := c'])
    ensures WorkersOwnTheirTurn(cs[id := c'], homes[session := id], workers[session := Worker(host, reply)])
    ensures ChildrenAccounted(cs[id := c'], homes[session := id], children, finished)
  {
    IdleHasNoWorker(cs, homes, workers, id);
  }

  lemma ClaimKeepsLeases(cs: Saved, homes: map<Id, Id>, holders: set<Id>, others: set<Key>, id: Id, c': Conversation, session: Id)
    requires LeasesExclusive(cs, homes, holders, others) && id in cs && KeyOf(c') == KeyOf(cs[id])
    requires Unheld(cs, homes, holders, KeyOf(cs[id])) && KeyOf(cs[id]) !in others && session !in homes
    ensures LeasesExclusive(cs[id := c'], homes[session := id], holders + {session}, others)
  {
    var cs', homes' := cs[id := c'], homes[session := id];
    forall x | x in holders && x != session && Homed(cs', homes', x)
      ensures Homed(cs, homes, x) && LeaseOf(cs', homes', x) == LeaseOf(cs, homes, x) != KeyOf(cs[id])
    {
    }
    assert LeaseOf(cs', homes', session) == KeyOf(cs[id]);
  }

  lemma ClaimKeepsInv(s: Store, host: nat, id: Id, index: nat, session: Id, reply: Id, now: int)
    requires Inv(s) && CanClaim(s, id, index, session, reply)
    ensures Inv(AfterClaim(s, host, id, index, session, reply, now))
  {
    hide TicketsUnique, IdsIssued, OneTurnPerWorkspace, QueuesBounded, WorkersOwnTheirTurn,
         ChildrenAccounted, LeasesExclusive, StartsInOrder, Sound, RunsTurn, Claimed;
    var c := s.conversations[id];
    var c' := Claimed(c, index, session, reply, now);
    var s' := AfterClaim(s, host, id, index, session, reply, now);
    assert session !in s.homes;
    hide SessionsHomed;
    QueuedIsUser(c, index);
    ClaimedMessages(c, index, session, reply, now);
    ClaimIsSound(s.conversations, s.homes, s.issued, id, index, session, reply, now);
    ClaimKeepsBooks(s.conversations, s.tickets, s.counter, s.homes, s.issued, id, index, session, reply, now);
    StartKeepsOrder(s.conversations, s'.conversations, s.tickets, s.counter, s.starts, id, index, true);
    SmallerQueuesStayBounded(s.conversations, s'.conversations, id);
    ClaimKeepsTurns(s.conversations, s.homes, s.workers, s.children, s.finished, host, id, c', session, reply);
    ClaimKeepsLeases(s.conversations, s.homes, Holders(s), s.others, id, c', session);
    assert Holders(s') == Holders(s) + {session};
  }

  // ---------------------------------------------------------------- steps that edit no conversation

  /** Leases may be dropped at any time, passed on to a child, or borrowed when free. */
  lemma LeaseEventKeepsInv(s: Store, s': Store)
    requires Inv(s)
    requires s' == s.(workers := s'.workers, children := s'.children, others := s'.others)
    requires forall x :: x in s'.workers ==> x in s.workers && s'.workers[x] == s.workers[x]
    requires s'.children <= Holders(s)
    requires s'.others <= s.others
             || exists k :: s'.others == s.others + {k} && LeaseFree(s, k)
    ensures Inv(s')
  {
    hide ConversationsSound, TicketsUnique, SessionsHomed, IdsIssued, OneTurnPerWorkspace, QueuesBounded, StartsInOrder, RunsTurn;
    forall x | x in s.workers ensures s.conversations[s.homes[x]].active == Some(x) {
      WorkerIsTheActiveTurn(s.conversations, s.homes, s.workers, x);
    }
    assert Holders(s') <= Holders(s);
  }

  lemma ReserveKeepsInv(s: Store)
    requires Inv(s)
    ensures Inv(s.(counter := s.counter + 1))
  {
    hide ConversationsSound, SessionsHomed, IdsIssued, OneTurnPerWorkspace, QueuesBounded, WorkersOwnTheirTurn,
         ChildrenAccounted, LeasesExclusive, StartsInOrder;
  }

  /** A conversation that says nothing yet: the parts of Inv about messages and sequences. */
  lemma CreateKeepsMessages(cs: Saved, c: Conversation, tickets: map<nat, Slot>, counter: nat, homes: map<Id, Id>, issued: Names)
    requires c.id !in cs && c.messages == []
    ensures TicketsUnique(cs, tickets, counter) ==> TicketsUnique(cs[c.id := c], tickets, counter)
    ensures SessionsHomed(cs, homes, issued) ==> SessionsHomed(cs[c.id := c], homes, issued)
    ensures IdsIssued(cs, issued) ==> IdsIssued(cs[c.id := c], issued)
  {
  }

  lemma CreateKeepsQueues(cs: Saved, c: Conversation, tickets: map<nat, Slot>, starts: seq<Start>)
    requires c.id !in cs && QueuedAt(c) == {}
    ensures QueuesBounded(cs) ==> QueuesBounded(cs[c.id := c])
    ensures StartsInOrder(cs, tickets, starts) ==> StartsInOrder(cs[c.id := c], tickets, starts)
  {
    hide QueuedAt;
    var cs' := cs[c.id := c];
    forall w ensures QueuedIn(cs', w) == QueuedIn(cs, w) {
    }
  }

  lemma CreateKeepsTurns(s: Store, c: Conversation)
    requires SessionsHomed(s.conversations, s.homes, s.issued) && c.id !in s.conversations && c.active.None?
    ensures var cs' := s.conversations[c.id := c];
            && (OneTurnPerWorkspace(s.conversations) ==> OneTurnPerWorkspace(cs'))
            && (WorkersOwnTheirTurn(s.conversations, s.homes, s.workers) ==> WorkersOwnTheirTurn(cs', s.homes, s.workers))
            && (ChildrenAccounted(s.conversations, s.homes, s.children, s.finished)
                ==> ChildrenAccounted(cs', s.homes, s.children, s.finished))
            && (LeasesExclusive(s.conversations, s.homes, Holders(s), s.others)
                ==> LeasesExclusive(cs', s.homes, Holders(s), s.others))
  {
    hide RunsTurn;
    var cs' := s.conversations[c.id := c];
    assert forall x :: Homed(cs', s.homes, x) ==> Homed(s.conversations, s.homes, x) && LeaseOf(cs', s.homes, x) == LeaseOf(s.conversations, s.homes, x);
  }

  lemma EmptyIsSound(c: Conversation)
    requires c.messages == [] && c.mutations == [] && c.active.None?
    ensures Sound(c) && QueuedAt(c) == {}
  {
    assert QueuedAt(c) == {};
  }

  lemma CreateKeepsInv(s: Store, c: Conversation)
    requires Inv(s) && Enabled(s, Create(c))
    ensures Inv(Put(s, c.id, c))
  {
    hide TicketsUnique, IdsIssued, OneTurnPerWorkspace, QueuesBounded, SessionsHomed, WorkersOwnTheirTurn,
         ChildrenAccounted, LeasesExclusive, StartsInOrder, Sound, QueuedAt;
    EmptyIsSound(c);
    CreateKeepsMessages(s.conversations, c, s.tickets, s.counter, s.homes, s.issued);
    CreateKeepsQueues(s.conversations, c, s.tickets, s.starts);
    CreateKeepsTurns(s, c);
  }

  // ---------------------------------------------------------------- the main theorem of this module

  lemma StepKeepsInv(s: Store, step: Step)
    requires Inv(s) && Enabled(s, step)
    ensures Inv(Apply(s, step))
  {
    hide Inv;
    match step
    case Create(c) => CreateKeepsInv(s, c);
    case Reserve => ReserveKeepsInv(s);
    case Enqueue(id, message, request, body, now) => EnqueueKeepsInv(s, id, message, request, body, now);
    case Change(id, message, request, expected, edit) => ChangeKeepsInv(s, id, message, request, expected, edit);
    case Recover(id) => RecoverKeepsInv(s, id);
    case Claim(host, id, index, session, reply, now) => ClaimKeepsInv(s, host, id, index, session, reply, now);
    case Refuse(id, index, error) => RefuseKeepsInv(s, id, index, error);
    case Progress(session, update) => ProgressKeepsInv(s, session, update);
    case Finish(session, output, interrupted, failure) => FinishKeepsInv(s, session, output, interrupted, failure);
    case Spawn(_) => LeaseEventKeepsInv(s, Apply(s, step));
    case Exit(_) => LeaseEventKeepsInv(s, Apply(s, step));
    case Lose(_) => LeaseEventKeepsInv(s, Apply(s, step));
    case HostDeath(_) => LeaseEventKeepsInv(s, Apply(s, step));
    case Borrow(_) => LeaseEventKeepsInv(s, Apply(s, step));
    case Return(_) => LeaseEventKeepsInv(s, Apply(s, step));
  }
}
