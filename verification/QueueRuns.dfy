/**
 What every run of the shared queue guarantees, whatever the hosts do, whenever they crash and
 however their steps interleave.
 */
module QueueRuns {
  import opened Options
  import opened Conversations
  import opened ConversationEdits
  import opened QueueProtocol
  import opened QueueSafety

  ghost predicate Run(states: seq<Store>, steps: seq<Step>) {
    && |states| == |steps| + 1
    && forall i :: 0 <= i < |steps| ==> Enabled(states[i], steps[i]) && states[i + 1] == Apply(states[i], steps[i])
  }

  const EMPTY := Store(map[], 0, map[], {}, {}, map[], map[], map[], {}, [])

  /** Any interleaving of all hosts' steps, crashes and lease events since the directory was empty. */
  ghost predicate History(states: seq<Store>, steps: seq<Step>) {
    Run(states, steps) && states[0] == EMPTY
  }

  ghost predicate Reachable(s: Store) {
    exists states, steps :: History(states, steps) && states[|steps|] == s
  }

  lemma HistoryIsSound(states: seq<Store>, steps: seq<Step>)
    requires History(states, steps)
    ensures |states| == |steps| + 1 && Run(states, steps) && Inv(states[0])
  {
    hide Inv, Enabled, Apply;
    EmptyStoreIsSound();
  }

  /** The invariant holds of a fresh store and every step keeps it. */
  lemma EveryReachableStoreIsSound(s: Store)
    requires Reachable(s)
    ensures Inv(s)
  {
    hide Inv, Enabled, Apply;
    var states, steps :| History(states, steps) && states[|steps|] == s;
    HistoryIsSound(states, steps);
    InvAlongRun(states, steps, |steps|);
  }

  lemma EmptyStoreIsSound()
    ensures Inv(EMPTY)
  {
    forall w ensures |QueuedIn(EMPTY.conversations, w)| <= MAX_QUEUED_PER_WORKSPACE {
      assert QueuedIn(EMPTY.conversations, w) == {};
    }
  }

  lemma {:induction false} InvAlongRun(states: seq<Store>, steps: seq<Step>, i: nat)
    requires Run(states, steps) && Inv(states[0]) && i < |states|
    ensures Inv(states[i])
  {
    hide Inv, Enabled, Apply;
    if i > 0 {
      InvAlongRun(states, steps, i - 1);
      StepKeepsInv(states[i - 1], steps[i - 1]);
    }
  }

  // ---------------------------------------------------------------- conversations only move forward

  ghost predicate Later(s: Store, s': Store) {
    && (forall id :: id in s.conversations ==> id in s'.conversations && Evolves(s.conversations[id], s'.conversations[id]))
    && s.counter <= s'.counter && s.starts <= s'.starts
    && (forall q :: q in s.tickets ==> q in s'.tickets && s'.tickets[q] == s.tickets[q])
    && (forall x :: x in s.homes ==> x in s'.homes && s'.homes[x] == s.homes[x])
  }

  lemma EvolvesToItself(c: Conversation)
    ensures Evolves(c, c)
  {
  }

  lemma OneFileMoves(s: Store, t: Store, id: Id)
    requires id in s.conversations && id in t.conversations && t.conversations == s.conversations[id := t.conversations[id]]
    requires Evolves(s.conversations[id], t.conversations[id])
    requires s.counter <= t.counter && s.starts <= t.starts
    requires forall q :: q in s.tickets ==> q in t.tickets && t.tickets[q] == s.tickets[q]
    requires forall x :: x in s.homes ==> x in t.homes && t.homes[x] == s.homes[x]
    ensures Later(s, t)
  {
    hide Evolves;
    forall x | x in s.conversations ensures Evolves(s.conversations[x], s.conversations[x]) {
      EvolvesToItself(s.conversations[x]);
    }
  }

  lemma SameFilesMove(s: Store, t: Store)
    requires forall id :: id in s.conversations ==> id in t.conversations && t.conversations[id] == s.conversations[id]
    requires s.counter <= t.counter && t.starts == s.starts && t.tickets == s.tickets && t.homes == s.homes
    ensures Later(s, t)
  {
    hide Evolves;
    forall x | x in s.conversations ensures Evolves(s.conversations[x], s.conversations[x]) {
      EvolvesToItself(s.conversations[x]);
    }
  }

  lemma StepMovesForward(s: Store, step: Step)
    requires Inv(s) && Enabled(s, step)
    ensures Later(s, Apply(s, step))
  {
    hide Inv, Evolves, Eligible, LeaseFree, Mutate, Later, AfterEnqueue, AfterClaim, AfterRefuse, Recovered, Progressed, Finished;
    match step
    case Change(id, message, request, expected, edit) =>
      ChangeMovesForward(s, id, message, request, expected, edit);
      if Mutate(s.conversations[id], message, request, expected, edit).Applied? {
        OneFileMoves(s, Apply(s, step), id);
      } else {
        SameFilesMove(s, s);
      }
    case Recover(id) =>
      RecoverMovesForward(s, id);
      OneFileMoves(s, Apply(s, step), id);
    case Progress(session, update) =>
      ReportMovesForward(s, session, update, None, false, None);
      OneFileMoves(s, Apply(s, step), s.homes[session]);
    case Finish(session, output, interrupted, failure) =>
      ReportMovesForward(s, session, None, output, interrupted, failure);
      OneFileMoves(s, Apply(s, step), s.homes[session]);
    case Enqueue(id, message, request, body, now) => EnqueueIsLater(s, id, message, request, body, now);
    case Claim(host, id, index, session, reply, now) => ClaimIsLater(s, host, id, index, session, reply, now);
    case Refuse(id, index, error) => RefuseIsLater(s, id, index, error);
    case _ => SameFilesMove(s, Apply(s, step));
  }

  lemma EnqueueIsLater(s: Store, id: Id, message: Id, request: Id, body: string, now: int)
    requires Inv(s) && CanEnqueue(s, id, message, request)
    ensures Later(s, AfterEnqueue(s, id, message, request, body, now))
  {
    hide Inv, Evolves, Later, Enqueued, NewRequest;
    EnqueueMovesForward(s, id, message, request, body, now);
    OneFileMoves(s, AfterEnqueue(s, id, message, request, body, now), id);
  }

  lemma ClaimIsLater(s: Store, host: nat, id: Id, index: nat, session: Id, reply: Id, now: int)
    requires Inv(s) && CanClaim(s, id, index, session, reply)
    ensures Later(s, AfterClaim(s, host, id, index, session, reply, now))
  {
    hide Inv, Evolves, Later, Claimed, SequenceAt, LeaseFree, Idle;
    FreshIsHomeless(s, session);
    ClaimMovesForward(s, host, id, index, session, reply, now);
    OneFileMoves(s, AfterClaim(s, host, id, index, session, reply, now), id);
  }

  lemma FreshIsHomeless(s: Store, session: Id)
    requires Inv(s) && session !in s.issued
    ensures session !in s.homes
  {
    assert SessionsHomed(s.conversations, s.homes, s.issued);
  }

  lemma RefuseIsLater(s: Store, id: Id, index: nat, error: string)
    requires Inv(s) && Eligible(s.conversations, id, index)
    ensures Later(s, AfterRefuse(s, id, index, error))
  {
    hide Inv, Evolves, Later, NotStarted, SequenceAt, Idle;
    RefuseMovesForward(s, id, index, error);
    OneFileMoves(s, AfterRefuse(s, id, index, error), id);
  }

  lemma ChangeMovesForward(s: Store, id: Id, message: Id, request: Id, expected: string, edit: Option<string>)
    requires Inv(s) && id in s.conversations
    ensures var r := Mutate(s.conversations[id], message, request, expected, edit);
            r.Applied? ==> Evolves(s.conversations[id], r.conversation)
  {
    hide Mutate;
    if Mutate(s.conversations[id], message, request, expected, edit).Applied? {
      MutatedIsSound(s.conversations[id], message, request, expected, edit);
    }
  }

  lemma RecoverMovesForward(s: Store, id: Id)
    requires Inv(s) && id in s.conversations
    ensures Evolves(s.conversations[id], Recovered(s.conversations[id]))
  {
    RecoveredIsSound(s.conversations[id]);
  }

  lemma ReportMovesForward(s: Store, session: Id, update: Option<string>, output: Option<Output>, interrupted: bool,
                           failure: Option<string>)
    requires Inv(s) && CanReport(s, session)
    ensures Homed(s.conversations, s.homes, session)
    ensures var c, reply := s.conversations[s.homes[session]], s.workers[session].reply;
            && Evolves(c, Progressed(c, reply, session, update))
            && Evolves(c, Finished(c, reply, session, output, Outcome(interrupted, failure), failure))
            && c.active == Some(session)
  {
    var c, reply := s.conversations[s.homes[session]], s.workers[session].reply;
    assert Sound(c) && RunsTurn(c, session, reply);
    hide Sound, Inv;
    var u: nat, a: nat :| TurnAt(c, u, a, session) && c.messages[a].id == reply;
    ProgressedIsSound(c, u, a, session, update);
    FinishedIsSound(c, u, a, session, output, interrupted, failure);
  }

  lemma EnqueueMovesForward(s: Store, id: Id, message: Id, request: Id, body: string, now: int)
    requires Inv(s) && CanEnqueue(s, id, message, request)
    ensures Evolves(s.conversations[id], AfterEnqueue(s, id, message, request, body, now).conversations[id])
    ensures s.counter !in s.tickets
  {
    hide Sound, SessionsHomed, OneTurnPerWorkspace, QueuesBounded, WorkersOwnTheirTurn, ChildrenAccounted, LeasesExclusive, StartsInOrder;
    EnqueueIsSound(s.conversations, s.tickets, s.counter, s.issued, id, message, request, body, now);
  }

  lemma ClaimMovesForward(s: Store, host: nat, id: Id, index: nat, session: Id, reply: Id, now: int)
    requires Inv(s) && CanClaim(s, id, index, session, reply)
    ensures Evolves(s.conversations[id], AfterClaim(s, host, id, index, session, reply, now).conversations[id])
  {
    hide Sound, TicketsUnique, OneTurnPerWorkspace, QueuesBounded, WorkersOwnTheirTurn, ChildrenAccounted, LeasesExclusive, StartsInOrder;
    ClaimIsSound(s.conversations, s.homes, s.issued, id, index, session, reply, now);
  }

  lemma RefuseMovesForward(s: Store, id: Id, index: nat, error: string)
    requires Inv(s) && Eligible(s.conversations, id, index)
    ensures Evolves(s.conversations[id], NotStarted(s.conversations[id], index, error))
  {
    NotStartedIsSound(s.conversations[id], index, error);
  }

  lemma LaterTransitive(a: Store, b: Store, c: Store)
    requires Later(a, b) && Later(b, c)
    ensures Later(a, c)
  {
    hide Evolves;
    forall id | id in a.conversations ensures Evolves(a.conversations[id], c.conversations[id]) {
      EvolvesTransitive(a.conversations[id], b.conversations[id], c.conversations[id]);
    }
  }

  /** Nothing is lost, reordered or revived: terminal messages stay exactly as they are for ever. */
  lemma {:induction false} RunMovesForward(states: seq<Store>, steps: seq<Step>, i: nat, j: nat)
    requires Run(states, steps) && Inv(states[0]) && i <= j < |states|
    ensures Later(states[i], states[j])
    decreases j
  {
    hide Inv, Enabled, Apply, Evolves;
    if i == j {
      forall id | id in states[i].conversations ensures Evolves(states[i].conversations[id], states[i].conversations[id]) {
        EvolvesToItself(states[i].conversations[id]);
      }
    } else {
      RunMovesForward(states, steps, i, j - 1);
      InvAlongRun(states, steps, j - 1);
      StepMovesForward(states[j - 1], steps[j - 1]);
      LaterTransitive(states[i], states[j - 1], states[j]);
    }
  }

  lemma SettledMessagesNeverChange(states: seq<Store>, steps: seq<Step>, i: nat, j: nat, id: Id, k: nat)
    requires History(states, steps) && i <= j < |states|
    requires id in states[i].conversations && k < |states[i].conversations[id].messages|
    requires Terminal(states[i].conversations[id].messages[k])
    ensures id in states[j].conversations && k < |states[j].conversations[id].messages|
    ensures states[j].conversations[id].messages[k] == states[i].conversations[id].messages[k]
  {
    hide Inv, Enabled, Apply;
    HistoryIsSound(states, steps);
    RunMovesForward(states, steps, i, j);
    assert Follows(states[i].conversations[id].messages[k], states[j].conversations[id].messages[k]);
  }

  // ---------------------------------------------------------------- first in, first out

  /** A step by which a queued message leaves the queue because its turn came. */
  predicate TakesTurn(step: Step) {
    step.Claim? || step.Refuse?
  }

  function TurnOf(s: Store, step: Step): (r: Start)
    requires TakesTurn(step) && step.id in s.conversations && step.index < |s.conversations[step.id].messages|
  {
    var c := s.conversations[step.id];
    Start(c.workspace, SequenceAt(c, step.index), step.Claim?)
  }

  lemma TurnIsRecorded(s: Store, step: Step)
    requires Enabled(s, step) && TakesTurn(step)
    ensures step.id in s.conversations && step.index < |s.conversations[step.id].messages|
    ensures Apply(s, step).starts == s.starts + [TurnOf(s, step)]
  {
  }

  /** Within a workspace, turns come up in strictly increasing sequence order, over every run. */
  lemma FirstInFirstOut(states: seq<Store>, steps: seq<Step>, i: nat, j: nat)
    requires History(states, steps) && i < j < |steps| && TakesTurn(steps[i]) && TakesTurn(steps[j])
    ensures steps[i].id in states[i].conversations && steps[i].index < |states[i].conversations[steps[i].id].messages|
    ensures steps[j].id in states[j].conversations && steps[j].index < |states[j].conversations[steps[j].id].messages|
    ensures TurnOf(states[i], steps[i]).workspace == TurnOf(states[j], steps[j]).workspace
            ==> TurnOf(states[i], steps[i]).sequence < TurnOf(states[j], steps[j]).sequence
  {
    HistoryIsSound(states, steps);
    TurnIsRecorded(states[i], steps[i]);
    TurnIsRecorded(states[j], steps[j]);
    InvAlongRun(states, steps, j + 1);
    RunMovesForward(states, steps, i + 1, j);
    hide Enabled, Apply, ConversationsSound, TicketsUnique, SessionsHomed, IdsIssued, OneTurnPerWorkspace, QueuesBounded,
         WorkersOwnTheirTurn, ChildrenAccounted, LeasesExclusive;
    var starts := states[j + 1].starts;
    assert starts[|states[i].starts|] == TurnOf(states[i], steps[i]);
    assert starts[|states[j].starts|] == TurnOf(states[j], steps[j]);
  }

  lemma EnqueueIssuesATicket(s: Store, step: Step)
    requires Enabled(s, step) && step.Enqueue?
    ensures step.id in s.conversations && s.counter !in s.tickets
    ensures var s' := Apply(s, step);
            var a := |s.conversations[step.id].messages|;
            && s.counter in s'.tickets && s'.counter == s.counter && step.id in s'.conversations
            && s'.conversations[step.id].workspace == s.conversations[step.id].workspace
            && a < |s'.conversations[step.id].messages|
            && s'.conversations[step.id].messages[a]
               == NewRequest(step.message, step.request, step.body, s.counter, step.now)
  {
    assert CanEnqueue(s, step.id, step.message, step.request);
  }

  /** Every accepted request gets a larger sequence than all before it, also after a crash between the two writes. */
  lemma SequencesAreNeverReused(states: seq<Store>, steps: seq<Step>, i: nat, j: nat)
    requires History(states, steps) && i < j < |steps| && steps[i].Enqueue? && steps[j].Enqueue?
    ensures states[i].counter < states[j].counter
  {
    hide Inv, Enabled, Apply, Evolves;
    HistoryIsSound(states, steps);
    EnqueueIssuesATicket(states[i], steps[i]);
    EnqueueIssuesATicket(states[j], steps[j]);
    RunMovesForward(states, steps, i + 1, j);
  }

  lemma EnqueuedStays(states: seq<Store>, steps: seq<Step>, i: nat, k: nat, a: nat)
    requires Run(states, steps) && Inv(states[0]) && i < k < |states| && steps[i].Enqueue?
    requires steps[i].id in states[i].conversations && a == |states[i].conversations[steps[i].id].messages|
    ensures var id := steps[i].id;
            && id in states[k].conversations && a < |states[k].conversations[id].messages|
            && states[k].conversations[id].workspace == states[i].conversations[id].workspace
            && Follows(NewRequest(steps[i].message, steps[i].request, steps[i].body, states[i].counter, steps[i].now),
                       states[k].conversations[id].messages[a])
  {
    hide Inv, Enabled, Apply;
    EnqueueIssuesATicket(states[i], steps[i]);
    RunMovesForward(states, steps, i + 1, k);
    var id := steps[i].id;
    assert Evolves(states[i + 1].conversations[id], states[k].conversations[id]);
  }

  lemma ClaimTakesTheLeast(s: Store, step: Step, x: Id, k: nat)
    requires Enabled(s, step) && step.Claim?
    requires x in s.conversations && k < |s.conversations[x].messages| && Waiting(s.conversations[x].messages[k])
    ensures step.id in s.conversations && step.index < |s.conversations[step.id].messages|
    ensures s.conversations[x].workspace == s.conversations[step.id].workspace
            ==> SequenceAt(s.conversations[step.id], step.index) <= SequenceAt(s.conversations[x], k)
  {
    assert CanClaim(s, step.id, step.index, step.session, step.reply);
    assert k in QueuedAt(s.conversations[x]);
  }

  /** A message sent later in the same workspace is not started while the earlier one still waits. */
  lemma NoOvertaking(states: seq<Store>, steps: seq<Step>, i: nat, j: nat, k: nat, a: nat, b: nat)
    requires History(states, steps) && i < j < k < |steps|
    requires steps[i].Enqueue? && steps[j].Enqueue? && steps[k].Claim?
    requires steps[i].id in states[i].conversations && a == |states[i].conversations[steps[i].id].messages|
    requires steps[j].id in states[j].conversations && b == |states[j].conversations[steps[j].id].messages|
    requires steps[k].id == steps[j].id && steps[k].index == b
    requires states[i].conversations[steps[i].id].workspace == states[j].conversations[steps[j].id].workspace
    ensures steps[i].id in states[k].conversations && a < |states[k].conversations[steps[i].id].messages|
    ensures !Waiting(states[k].conversations[steps[i].id].messages[a])
  {
    hide Inv, Enabled, Apply, Run;
    HistoryIsSound(states, steps);
    RunStep(states, steps, k);
    SequencesAreNeverReused(states, steps, i, j);
    EnqueuedStays(states, steps, i, k, a);
    EnqueuedStays(states, steps, j, k, b);
    if Waiting(states[k].conversations[steps[i].id].messages[a]) {
      ClaimTakesTheLeast(states[k], steps[k], steps[i].id, a);
    }
  }

  lemma RunStep(states: seq<Store>, steps: seq<Step>, k: nat)
    requires Run(states, steps) && k < |steps|
    ensures |states| == |steps| + 1 && Enabled(states[k], steps[k]) && states[k + 1] == Apply(states[k], steps[k])
  {
  }

  // ---------------------------------------------------------------- requests take effect at most once

  lemma RequestEnqueuedAtMostOnce(states: seq<Store>, steps: seq<Step>, i: nat, j: nat)
    requires History(states, steps) && i < j < |steps| && steps[i].Enqueue? && steps[j].Enqueue?
    ensures steps[i].id != steps[j].id || steps[i].request != steps[j].request
  {
    hide Inv, Apply;
    HistoryIsSound(states, steps);
    EnqueueIssuesATicket(states[i], steps[i]);
    var a := |states[i].conversations[steps[i].id].messages|;
    EnqueuedStays(states, steps, i, j, a);
    assert CanEnqueue(states[j], steps[j].id, steps[j].message, steps[j].request);
    if steps[i].id == steps[j].id {
      assert !Asked(states[j].conversations[steps[i].id].messages[a], steps[j].request);
    }
  }

  predicate TakesEffect(s: Store, step: Step) {
    step.Change? && step.id in s.conversations
    && Mutate(s.conversations[step.id], step.message, step.request, step.expected, step.edit).Applied?
  }

  /** However often an edit or cancel request is sent, and whatever it then says, it takes effect at most once. */
  lemma MutationTakesEffectAtMostOnce(states: seq<Store>, steps: seq<Step>, i: nat, j: nat)
    requires History(states, steps) && i < j < |steps|
    requires TakesEffect(states[i], steps[i]) && TakesEffect(states[j], steps[j])
    ensures steps[i].id != steps[j].id || steps[i].request != steps[j].request
  {
    hide Sound, Evolves, Inv, Enabled, Mutate, Run;
    HistoryIsSound(states, steps);
    RunStep(states, steps, i);
    RunMovesForward(states, steps, i + 1, j);
    var a, b := steps[i], steps[j];
    var m := Mutate(states[i].conversations[a.id], a.message, a.request, a.expected, a.edit);
    assert states[i + 1].conversations[a.id] == m.conversation;
    if a.id == b.id && a.request == b.request {
      MutationTakesEffectOnce(states[i].conversations[a.id], a.message, a.request, a.expected, a.edit,
                              states[j].conversations[a.id], b.message, b.expected, b.edit);
    }
  }

  lemma MutationKeepsItsId(c: Conversation, message: Id, request: Id, expected: string, edit: Option<string>)
    requires Mutate(c, message, request, expected, edit).Applied?
    ensures Mutate(c, message, request, expected, edit).conversation.id == c.id
  {
  }

  // ---------------------------------------------------------------- mutual exclusion

  /** No two workers of one workspace, and a worker's turn is never recovered from under it. */
  lemma OneWorkerPerWorkspace(s: Store, x: Id, y: Id)
    requires Reachable(s) && x in s.workers && y in s.workers
    ensures Homed(s.conversations, s.homes, x) && Homed(s.conversations, s.homes, y)
    ensures s.conversations[s.homes[x]].active == Some(x) && !CanRecover(s, s.homes[x])
    ensures LeaseOf(s.conversations, s.homes, x).workspace == LeaseOf(s.conversations, s.homes, y).workspace ==> x == y
  {
    hide RunsTurn, ConversationsSound, TicketsUnique, SessionsHomed, IdsIssued, QueuesBounded, StartsInOrder;
    EveryReachableStoreIsSound(s);
    WorkerIsTheActiveTurn(s.conversations, s.homes, s.workers, x);
    WorkerIsTheActiveTurn(s.conversations, s.homes, s.workers, y);
    assert x in Holders(s);
    assert LeaseOf(s.conversations, s.homes, x) == KeyOf(s.conversations[s.homes[x]]);
  }

  /** A claim finds no worker in its workspace, and no process left over from an unfinished turn there. */
  lemma ClaimFindsTheWorkspaceFree(s: Store, id: Id, index: nat, session: Id, reply: Id, x: Id)
    requires Reachable(s) && CanClaim(s, id, index, session, reply)
    requires x in Holders(s) && Homed(s.conversations, s.homes, x)
    requires LeaseOf(s.conversations, s.homes, x).workspace == s.conversations[id].workspace
    ensures x !in s.workers && x in s.finished
    ensures LeaseOf(s.conversations, s.homes, x).repository != s.conversations[id].repository
  {
    hide RunsTurn, ConversationsSound, TicketsUnique, SessionsHomed, IdsIssued, QueuesBounded, StartsInOrder;
    EveryReachableStoreIsSound(s);
    if x in s.workers { WorkerIsTheActiveTurn(s.conversations, s.homes, s.workers, x); }
  }

  /**
   The lease file is named after workspace and repository. So a process that outlives a turn
   which its own worker ended keeps the next turn of the workspace out if and only if that
   turn is for the same repository.
   */
  lemma SurvivorBlocksOnlyItsRepository(s: Store, x: Id, id: Id, index: nat, session: Id, reply: Id)
    requires x in s.children && x !in s.workers && id in s.conversations
    requires Homed(s.conversations, s.homes, x)
    requires LeaseOf(s.conversations, s.homes, x).workspace == s.conversations[id].workspace
    requires CanClaim(s.(children := s.children - {x}), id, index, session, reply)
    ensures CanClaim(s, id, index, session, reply)
            <==> LeaseOf(s.conversations, s.homes, x).repository != s.conversations[id].repository
  {
    hide Eligible;
    assert Holders(s) == Holders(s.(children := s.children - {x})) + {x};
  }

  /** Recovery after a crash waits for every process that inherited the lease. */
  lemma OrphansHoldTheirTurn(s: Store, x: Id)
    requires Reachable(s) && x in s.children && x !in s.finished
    ensures Homed(s.conversations, s.homes, x) && s.conversations[s.homes[x]].active == Some(x)
    ensures !CanRecover(s, s.homes[x])
    ensures forall id, index, session, reply ::
              (id in s.conversations && s.conversations[id].workspace == s.conversations[s.homes[x]].workspace)
              ==> !CanClaim(s, id, index, session, reply)
  {
    hide RunsTurn, ConversationsSound, TicketsUnique, SessionsHomed, IdsIssued, QueuesBounded, StartsInOrder;
    EveryReachableStoreIsSound(s);
    assert x in Holders(s);
    assert LeaseOf(s.conversations, s.homes, x) == KeyOf(s.conversations[s.homes[x]]);
    forall id, index, session, reply | id in s.conversations
           && s.conversations[id].workspace == s.conversations[s.homes[x]].workspace
      ensures !CanClaim(s, id, index, session, reply)
    {
      assert !Idle(s.conversations, s.conversations[id].workspace);
    }
  }

  // ---------------------------------------------------------------- a turn that is over stays over

  /** The session was handed out and its conversation no longer runs it. */
  ghost predicate IsPast(s: Store, x: Id) {
    Homed(s.conversations, s.homes, x) && s.conversations[s.homes[x]].active != Some(x)
  }

  predicate EndsTurn(s: Store, step: Step, x: Id) {
    match step
    case Recover(id) => id in s.conversations && s.conversations[id].active == Some(x)
    case Finish(session, _, _, _) => session == x
    case _ => false
  }

  lemma ActiveIsHome(s: Store, id: Id, x: Id)
    requires Inv(s) && id in s.conversations && s.conversations[id].active == Some(x)
    ensures Homed(s.conversations, s.homes, x) && s.homes[x] == id
  {
    hide TicketsUnique, IdsIssued, OneTurnPerWorkspace, WorkersOwnTheirTurn, ChildrenAccounted, LeasesExclusive, StartsInOrder, QueuesBounded;
    var c := s.conversations[id];
    assert TurnShape(c);
    var u: nat, a: nat :| TurnAt(c, u, a, x);
    assert c.messages[u].session == Some(x);
  }

  lemma EndedIsPast(s: Store, step: Step, x: Id)
    requires Inv(s) && Enabled(s, step) && EndsTurn(s, step, x)
    ensures IsPast(Apply(s, step), x)
  {
    hide Inv, Finished, Recovered, LeaseFree;
    match step
    case Recover(id) =>
      ActiveIsHome(s, id, x);
      EditsEndTurns(s.conversations[id], 0, x, None, Completed, None);
    case Finish(session, output, interrupted, failure) =>
      ReportMovesForward(s, session, None, output, interrupted, failure);
      EditsEndTurns(s.conversations[s.homes[x]], s.workers[x].reply, x, output, Outcome(interrupted, failure), failure);
  }

  lemma EditsEndTurns(c: Conversation, reply: Id, x: Id, output: Option<Output>, status: Status, error: Option<string>)
    ensures Recovered(c).active.None? && Finished(c, reply, x, output, status, error).active == if c.active == Some(x) then None else c.active
  {
  }

  lemma EditKeepsPast(s: Store, s': Store, id: Id, x: Id)
    requires id in s.conversations && id in s'.conversations && s'.conversations == s.conversations[id := s'.conversations[id]]
    requires s'.homes == s.homes && IsPast(s, x)
    requires s'.conversations[id].active.None? || s'.conversations[id].active == s.conversations[id].active
    ensures IsPast(s', x)
  {
  }

  /** No step brings a past session back: a claim's session is a fresh one. */
  lemma PastStaysPast(s: Store, step: Step, x: Id)
    requires Inv(s) && Enabled(s, step) && IsPast(s, x)
    ensures IsPast(Apply(s, step), x)
  {
    hide Inv, IsPast, Eligible, LeaseFree, AfterClaim, AfterProgress, AfterFinish, AfterChange, Mutate, CanClaim;
    match step
    case Create(c) => CreateKeepsPast(s, c, x);
    case Enqueue(id, _, _, _, _) => EditKeepsPast(s, Apply(s, step), id, x);
    case Change(id, message, request, expected, edit) => ChangeKeepsPast(s, id, message, request, expected, edit, x);
    case Recover(id) => EditKeepsPast(s, Apply(s, step), id, x);
    case Claim(host, id, index, session, reply, now) => ClaimKeepsPast(s, host, id, index, session, reply, now, x);
    case Refuse(id, index, error) => RefuseKeepsPast(s, id, index, error, x);
    case Progress(session, update) => ReportKeepsPast(s, session, update, None, false, None, x);
    case Finish(session, output, interrupted, failure) => ReportKeepsPast(s, session, None, output, interrupted, failure, x);
    case _ => SameFilesKeepPast(s, Apply(s, step), x);
  }

  lemma RefuseKeepsPast(s: Store, id: Id, index: nat, error: string, x: Id)
    requires IsPast(s, x) && Eligible(s.conversations, id, index)
    ensures IsPast(AfterRefuse(s, id, index, error), x)
  {
  }

  lemma SameFilesKeepPast(s: Store, s': Store, x: Id)
    requires IsPast(s, x) && s'.conversations == s.conversations && s'.homes == s.homes
    ensures IsPast(s', x)
  {
  }

  lemma CreateKeepsPast(s: Store, c: Conversation, x: Id)
    requires IsPast(s, x) && c.id !in s.conversations
    ensures IsPast(Put(s, c.id, c), x)
  {
  }

  lemma ChangeKeepsPast(s: Store, id: Id, message: Id, request: Id, expected: string, edit: Option<string>, x: Id)
    requires IsPast(s, x) && id in s.conversations
    ensures IsPast(AfterChange(s, id, Mutate(s.conversations[id], message, request, expected, edit)), x)
  {
  }

  lemma ClaimKeepsPast(s: Store, host: nat, id: Id, index: nat, session: Id, reply: Id, now: int, x: Id)
    requires Inv(s) && IsPast(s, x) && CanClaim(s, id, index, session, reply)
    ensures IsPast(AfterClaim(s, host, id, index, session, reply, now), x)
  {
    hide ConversationsSound, TicketsUnique, IdsIssued, OneTurnPerWorkspace, WorkersOwnTheirTurn, ChildrenAccounted, LeasesExclusive,
         StartsInOrder, QueuesBounded, LeaseFree, Idle;
    assert x in s.issued;
  }

  lemma ReportKeepsPast(s: Store, session: Id, update: Option<string>, output: Option<Output>, interrupted: bool,
                        failure: Option<string>, x: Id)
    requires CanReport(s, session) && IsPast(s, x)
    ensures IsPast(AfterProgress(s, session, update), x) && IsPast(AfterFinish(s, session, output, interrupted, failure), x)
  {
    var c, reply := s.conversations[s.homes[session]], s.workers[session].reply;
    EditsEndTurns(c, reply, session, output, Outcome(interrupted, failure), failure);
    ProgressKeepsTurn(c, reply, session, update);
    hide Progressed, Finished, IsPast;
    EditKeepsPast(s, AfterProgress(s, session, update), s.homes[session], x);
    EditKeepsPast(s, AfterFinish(s, session, output, interrupted, failure), s.homes[session], x);
  }

  lemma ProgressKeepsTurn(c: Conversation, reply: Id, session: Id, update: Option<string>)
    ensures Progressed(c, reply, session, update).active == c.active
  {
  }

  lemma {:induction false} PastAlongRun(states: seq<Store>, steps: seq<Step>, i: nat, j: nat, x: Id)
    requires Run(states, steps) && Inv(states[0]) && i <= j < |states| && IsPast(states[i], x)
    ensures IsPast(states[j], x)
    decreases j
  {
    hide Inv, Enabled, Apply, IsPast;
    if i < j {
      PastAlongRun(states, steps, i, j - 1, x);
      InvAlongRun(states, steps, j - 1);
      PastStaysPast(states[j - 1], steps[j - 1], x);
    }
  }

  /**
   Whatever a thread still has to say about a turn that was recovered, or that it has already ended, is never
   heard: in no later store does the session run, can it report, or would a report change any conversation.
   */
  lemma LateReportsAreIgnored(states: seq<Store>, steps: seq<Step>, i: nat, j: nat, x: Id)
    requires History(states, steps) && i < j < |states| && EndsTurn(states[i], steps[i], x)
    ensures x !in states[j].workers && !CanReport(states[j], x)
    ensures forall id :: id in states[j].conversations ==> states[j].conversations[id].active != Some(x)
    ensures forall id, reply, update :: id in states[j].conversations ==>
              Progressed(states[j].conversations[id], reply, x, update) == states[j].conversations[id]
    ensures forall id, reply, output, status, error :: id in states[j].conversations ==>
              Finished(states[j].conversations[id], reply, x, output, status, error) == states[j].conversations[id]
  {
    HistoryIsSound(states, steps);
    InvAlongRun(states, steps, i);
    InvAlongRun(states, steps, j);
    EndedIsPast(states[i], steps[i], x);
    PastAlongRun(states, steps, i + 1, j, x);
    PastIsSilent(states[j], x);
  }

  lemma PastIsSilent(s: Store, x: Id)
    requires Inv(s) && IsPast(s, x)
    ensures x !in s.workers && forall id :: id in s.conversations ==> s.conversations[id].active != Some(x)
  {
    hide ConversationsSound, TicketsUnique, SessionsHomed, IdsIssued, OneTurnPerWorkspace, ChildrenAccounted,
         LeasesExclusive, StartsInOrder, QueuesBounded, RunsTurn;
    forall id | id in s.conversations ensures s.conversations[id].active != Some(x) {
      if s.conversations[id].active == Some(x) { ActiveIsHome(s, id, x); }
    }
    if x in s.workers { WorkerIsTheActiveTurn(s.conversations, s.homes, s.workers, x); }
  }

  // ---------------------------------------------------------------- reserved slots

  /** Every queued request can still be claimed and answered: its reply slot is kept free, and reads accept the result. */
  lemma SlotsStayReserved(states: seq<Store>, steps: seq<Step>, i: nat, id: Id)
    requires History(states, steps) && i < |states| && id in states[i].conversations
    ensures var c := states[i].conversations[id];
            && |c.messages| + |QueuedAt(c)| <= 255 && |c.mutations| <= 1024
            && |QueuedIn(states[i].conversations, c.workspace)| <= 64
  {
    HistoryIsSound(states, steps);
    InvAlongRun(states, steps, i);
    var c := states[i].conversations[id];
    assert Sound(c);
    hide Sound;
    assert |QueuedIn(states[i].conversations, c.workspace)| <= MAX_QUEUED_PER_WORKSPACE;
  }

  // ---------------------------------------------------------------- the queue is never stuck

  lemma LeastQueued(cs: Saved, slots: set<Slot>) returns (slot: Slot)
    requires slots != {} && forall t :: t in slots ==> t.conversation in cs && t.index < |cs[t.conversation].messages|
    ensures slot in slots
    ensures forall t :: t in slots ==> SequenceAt(cs[slot.conversation], slot.index) <= SequenceAt(cs[t.conversation], t.index)
    decreases |slots|
  {
    slot :| slot in slots;
    if slots != {slot} {
      var other := LeastQueued(cs, slots - {slot});
      if SequenceAt(cs[other.conversation], other.index) < SequenceAt(cs[slot.conversation], slot.index) {
        slot := other;
      }
    }
  }

  lemma FreshId(issued: set<Id>) returns (x: Id)
    ensures forall y :: y in issued ==> y < x
  {
    if issued == {} {
      x := 0;
    } else {
      var y :| y in issued;
      var z := FreshId(issued - {y});
      x := if y < z then z else y + 1;
      assert forall k :: k in issued ==> k == y || k in issued - {y};
    }
  }

  /** Once no process holds a lease, a workspace with queued messages can recover its dead turn or start the next one. */
  lemma QueueIsNeverStuck(s: Store, w: Workspace) returns (step: Step)
    requires Reachable(s) && Holders(s) == {} && s.others == {} && QueuedIn(s.conversations, w) != {}
    ensures Enabled(s, step) && (step.Recover? || step.Claim?)
    ensures step.id in s.conversations && s.conversations[step.id].workspace == w
  {
    hide Inv;
    EveryReachableStoreIsSound(s);
    if id :| id in s.conversations && s.conversations[id].workspace == w && s.conversations[id].active.Some? {
      step := Recover(id);
    } else {
      var slot := LeastQueued(s.conversations, QueuedIn(s.conversations, w));
      var session := FreshId(s.issued.Keys);
      step := Claim(0, slot.conversation, slot.index, session, session + 1, 0);
      forall x, i | x in s.conversations && s.conversations[x].workspace == w && i in QueuedAt(s.conversations[x])
        ensures SequenceAt(s.conversations[slot.conversation], slot.index) <= SequenceAt(s.conversations[x], i)
      {
        assert Slot(x, i) in QueuedIn(s.conversations, w);
      }
      assert Eligible(s.conversations, slot.conversation, slot.index);
    }
  }
}
