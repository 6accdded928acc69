/**
 What text a request has over whole runs: the text that was sent, until an edit takes effect, and then that of the
 latest one; and what becomes of a request that was cancelled.
 */
module RequestTexts {
  import opened Options
  import opened Conversations
  import opened EditEffects
  import opened QueueProtocol
  import opened QueueRuns
  import opened TurnHistory

  /** An edit of the message takes effect. */
  ghost predicate NewText(s: Store, step: Step, id: Id, message: Id) {
    && step.Change? && step.id == id && step.message == message && step.edit.Some? && id in s.conversations
    && MayChange(s.conversations[id], message, step.request, step.expected, step.edit)
  }

  /** A cancel of the message takes effect. */
  ghost predicate Cancels(s: Store, step: Step, id: Id, message: Id) {
    && step.Change? && step.id == id && step.message == message && step.edit.None? && id in s.conversations
    && MayChange(s.conversations[id], message, step.request, step.expected, step.edit)
  }

  /** The user message at a is still there, and has the text. */
  ghost predicate HasText(c: Conversation, c': Conversation, a: nat, text: string) {
    && a < |c.messages| && a < |c'.messages| && c'.messages[a].role.User? && c'.messages[a].id == c.messages[a].id
    && c'.messages[a].body == text
  }

  lemma ChangeText(s: Store, id: Id, message: Id, request: Id, expected: string, edit: Option<string>, a: nat)
    requires Inv(s) && id in s.conversations && a < |s.conversations[id].messages| && s.conversations[id].messages[a].role.User?
    ensures var c := s.conversations[id];
            var s' := AfterChange(s, id, Mutate(c, message, request, expected, edit));
            && id in s'.conversations
            && (if message == c.messages[a].id && MayChange(c, message, request, expected, edit)
                then HasText(c, s'.conversations[id], a, if edit.Some? then edit.value else c.messages[a].body)
                     && (edit.None? ==> s'.conversations[id].messages[a].status.Cancelled?)
                else HasText(c, s'.conversations[id], a, c.messages[a].body))
  {
    StoredIsSound(s, id);
    MutateExactly(s.conversations[id], message, request, expected, edit);
    hide Inv, Sound, Mutate, MayChange;
  }

  lemma StartedText(c: Conversation, a: nat, u: nat, session: Id, reply: Id, now: int)
    requires a < |c.messages| && u < |c.messages| && c.messages[a].role.User?
    ensures HasText(c, Claimed(c, u, session, reply, now), a, c.messages[a].body)
  {
    ClaimedHasStarted(c, u, session, reply, now);
    hide Claimed;
  }

  lemma FailedText(c: Conversation, a: nat, u: nat, error: string)
    requires a < |c.messages| && u < |c.messages| && c.messages[a].role.User?
    ensures HasText(c, NotStarted(c, u, error), a, c.messages[a].body)
  {
    NotStartedHasFailed(c, u, error);
    hide NotStarted;
  }

  lemma QuietText(c: Conversation, a: nat, id: Id, request: Id, text: string, sequence: nat, now: int)
    requires a < |c.messages| && c.messages[a].role.User?
    ensures HasText(c, Recovered(c), a, c.messages[a].body)
    ensures HasText(c, Enqueued(c, NewRequest(id, request, text, sequence, now)), a, c.messages[a].body)
  {
    RecoveredHasRecovered(c);
    EnqueuedHasRequest(c, id, request, text, sequence, now);
    hide Recovered, Enqueued, NewRequest;
  }

  lemma ReportText(s: Store, session: Id, update: Option<string>, output: Option<Output>, interrupted: bool, failure: Option<string>, a: nat)
    requires Inv(s) && CanReport(s, session)
    requires a < |s.conversations[s.homes[session]].messages| && s.conversations[s.homes[session]].messages[a].role.User?
    ensures var c, reply := s.conversations[s.homes[session]], s.workers[session].reply;
            && HasText(c, Progressed(c, reply, session, update), a, c.messages[a].body)
            && HasText(c, Finished(c, reply, session, output, Outcome(interrupted, failure), failure), a, c.messages[a].body)
  {
    var c, reply := s.conversations[s.homes[session]], s.workers[session].reply;
    StoredIsSound(s, s.homes[session]);
    assert RunsTurn(c, session, reply) by { WorkerTurn(s, session); }
    hide Inv, CanReport, Sound, TurnAt, Progressed, Finished, HasText;
    var u: nat, b: nat :| TurnAt(c, u, b, session) && c.messages[b].id == reply;
    ReportedText(c, u, b, session, update, output, interrupted, failure, a);
  }

  lemma ReportedText(c: Conversation, u: nat, b: nat, session: Id, update: Option<string>, output: Option<Output>, interrupted: bool,
                     failure: Option<string>, a: nat)
    requires Sound(c) && c.active == Some(session) && TurnAt(c, u, b, session)
    requires a < |c.messages| && c.messages[a].role.User?
    ensures var reply := c.messages[b].id;
            && HasText(c, Progressed(c, reply, session, update), a, c.messages[a].body)
            && HasText(c, Finished(c, reply, session, output, Outcome(interrupted, failure), failure), a, c.messages[a].body)
  {
    assert UniqueIds(c.messages) && c.messages[b].role.Assistant?;
    hide Sound, TurnAt, Progressed, Finished;
    ProgressedHasProgress(c, b, session, update);
    FinishedHasEnded(c, u, b, session, output, interrupted, failure);
  }

  lemma WorkerTurn(s: Store, session: Id)
    requires Inv(s) && session in s.workers
    ensures Homed(s.conversations, s.homes, session) && RunsTurn(s.conversations[s.homes[session]], session, s.workers[session].reply)
  {
    assert WorkersOwnTheirTurn(s.conversations, s.homes, s.workers);
  }

  /** Only an edit that takes effect changes a request's text. */
  lemma StepAndText(s: Store, step: Step, id: Id, a: nat)
    requires Inv(s) && Enabled(s, step) && id in s.conversations
    requires a < |s.conversations[id].messages| && s.conversations[id].messages[a].role.User?
    ensures id in Apply(s, step).conversations
    ensures var c, c' := s.conversations[id], Apply(s, step).conversations[id];
            && HasText(c, c', a, if NewText(s, step, id, c.messages[a].id) then step.edit.value else c.messages[a].body)
            && (Cancels(s, step, id, c.messages[a].id) ==> c'.messages[a].status.Cancelled?)
  {
    hide Inv, HasText, Mutate, MayChange, Recovered, Eligible, LeaseFree, Claimed, NotStarted, Progressed, Finished, Enqueued, NewRequest,
         AfterChange, SequenceAt;
    var c := s.conversations[id];
    if Edited(s, step) == Some(id) {
      match step
      case Enqueue(_, message, request, body, now) => QuietText(c, a, message, request, body, s.counter, now);
      case Change(_, message, request, expected, edit) => ChangeText(s, id, message, request, expected, edit, a);
      case Recover(_) => QuietText(c, a, 0, 0, "", 0, 0);
      case Claim(_, _, index, session, reply, now) =>
        EligibleInRange(s, id, index);
        StartedText(c, a, index, session, reply, now);
      case Refuse(_, index, error) =>
        EligibleInRange(s, id, index);
        FailedText(c, a, index, error);
      case Progress(session, update) => ReportText(s, session, update, None, false, None, a);
      case Finish(session, output, interrupted, failure) => ReportText(s, session, None, output, interrupted, failure, a);
      case _ =>
    } else {
      OthersAreUntouched(s, step, id);
      TextStaysItself(c, a);
    }
  }

  lemma EligibleInRange(s: Store, id: Id, index: nat)
    requires Eligible(s.conversations, id, index)
    ensures id in s.conversations && index < |s.conversations[id].messages|
  {
  }

  lemma TextStaysItself(c: Conversation, a: nat)
    requires a < |c.messages| && c.messages[a].role.User?
    ensures HasText(c, c, a, c.messages[a].body)
  {
  }

  // ---------------------------------------------------------------- over whole runs

  /** No edit of the message takes effect from step i to step k. */
  ghost predicate Unedited(states: seq<Store>, steps: seq<Step>, i: nat, k: nat, id: Id, message: Id)
    requires k <= |steps| < |states|
  {
    forall j :: i <= j < k ==> !NewText(states[j], steps[j], id, message)
  }

  lemma {:induction false} TextStays(states: seq<Store>, steps: seq<Step>, i: nat, k: nat, id: Id, a: nat)
    requires Run(states, steps) && Inv(states[0]) && i <= k <= |steps|
    requires id in states[i].conversations && a < |states[i].conversations[id].messages| && states[i].conversations[id].messages[a].role.User?
    requires Unedited(states, steps, i, k, id, states[i].conversations[id].messages[a].id)
    ensures id in states[k].conversations
    ensures HasText(states[i].conversations[id], states[k].conversations[id], a, states[i].conversations[id].messages[a].body)
    decreases k
  {
    hide Inv, Enabled, Apply, NewText, Cancels;
    if i < k {
      TextStays(states, steps, i, k - 1, id, a);
      InvAlongRun(states, steps, k - 1);
      RunStep(states, steps, k - 1);
      StepAndText(states[k - 1], steps[k - 1], id, a);
    }
  }

  /** The latest edit of the message before step k that takes effect is the one at step e. */
  ghost predicate IsLatestEdit(states: seq<Store>, steps: seq<Step>, e: nat, k: nat, id: Id, message: Id)
    requires k <= |steps| < |states|
  {
    e < k && NewText(states[e], steps[e], id, message) && Unedited(states, steps, e + 1, k, id, message)
  }

  /**
   A request that was accepted at step i has, at every later point, the text that was sent, or that of the latest edit
   that took effect since.
   */
  lemma TextIsTheLatest(states: seq<Store>, steps: seq<Step>, i: nat, k: nat, a: nat)
    requires History(states, steps) && i < k <= |steps| && steps[i].Enqueue?
    requires steps[i].id in states[i].conversations && a == |states[i].conversations[steps[i].id].messages|
    ensures var id := steps[i].id; id in states[k].conversations && a < |states[k].conversations[id].messages|
    ensures var id, message := steps[i].id, steps[i].message;
            var m := states[k].conversations[id].messages[a];
            && m.id == message && m.request == Some(steps[i].request)
            && (Unedited(states, steps, i + 1, k, id, message) ==> m.body == steps[i].body)
            && forall e :: i < e < k && IsLatestEdit(states, steps, e, k, id, message) ==> m.body == steps[e].edit.value
  {
    hide Inv, Enabled, Apply, Unedited, MayChange, Cancels;
    HistoryIsSound(states, steps);
    RunStep(states, steps, i);
    EnqueueIssuesATicket(states[i], steps[i]);
    EnqueuedStays(states, steps, i, k, a);
    var id, message := steps[i].id, steps[i].message;
    assert states[i + 1].conversations[id].messages[a].body == steps[i].body;
    if Unedited(states, steps, i + 1, k, id, message) {
      TextStays(states, steps, i + 1, k, id, a);
    }
    forall e | i < e < k && IsLatestEdit(states, steps, e, k, id, message)
      ensures states[k].conversations[id].messages[a].body == steps[e].edit.value
    {
      EnqueuedStays(states, steps, i, e, a);
      LatestEditStays(states, steps, e, k, id, a);
    }
  }

  lemma LatestEditStays(states: seq<Store>, steps: seq<Step>, e: nat, k: nat, id: Id, a: nat)
    requires Run(states, steps) && Inv(states[0]) && e < k <= |steps|
    requires id in states[e].conversations && a < |states[e].conversations[id].messages| && states[e].conversations[id].messages[a].role.User?
    requires IsLatestEdit(states, steps, e, k, id, states[e].conversations[id].messages[a].id)
    ensures steps[e].Change? && steps[e].edit.Some?
    ensures id in states[k].conversations && a < |states[k].conversations[id].messages|
    ensures states[k].conversations[id].messages[a].body == steps[e].edit.value
  {
    hide Inv, Enabled, Apply, MayChange;
    InvAlongRun(states, steps, e);
    RunStep(states, steps, e);
    StepAndText(states[e], steps[e], id, a);
    TextStays(states, steps, e + 1, k, id, a);
  }

  /** A message whose cancel took effect stays cancelled, and no later step starts or fails it. */
  lemma CancelledIsNeverStarted(states: seq<Store>, steps: seq<Step>, j: nat, k: nat, id: Id, a: nat)
    requires History(states, steps) && j < k <= |steps|
    requires id in states[j].conversations && a < |states[j].conversations[id].messages| && states[j].conversations[id].messages[a].role.User?
    requires Cancels(states[j], steps[j], id, states[j].conversations[id].messages[a].id)
    ensures id in states[k].conversations && a < |states[k].conversations[id].messages|
    ensures states[k].conversations[id].messages[a].status.Cancelled?
    ensures k < |steps| && (steps[k].Claim? || steps[k].Refuse?) ==> steps[k].id != id || steps[k].index != a
  {
    hide Inv, Enabled, Apply, Cancels, NewText;
    HistoryIsSound(states, steps);
    InvAlongRun(states, steps, j);
    RunStep(states, steps, j);
    StepAndText(states[j], steps[j], id, a);
    SettledMessagesNeverChange(states, steps, j + 1, k, id, a);
    if k < |steps| && (steps[k].Claim? || steps[k].Refuse?) {
      RunStep(states, steps, k);
      OnlyQueuedTakesTurn(states[k], steps[k]);
    }
  }

  lemma OnlyQueuedTakesTurn(s: Store, step: Step)
    requires Enabled(s, step) && (step.Claim? || step.Refuse?)
    ensures step.id in s.conversations && step.index < |s.conversations[step.id].messages|
    ensures s.conversations[step.id].messages[step.index].status.Queued?
  {
  }

  /**
   The last entry of the history that a claimed turn is dispatched with has the request id under which its text was sent,
   and that text, or the one of the latest edit that took effect.
   */
  lemma DispatchedTextIsTheLatest(states: seq<Store>, steps: seq<Step>, i: nat, k: nat, a: nat)
    requires History(states, steps) && i < k < |steps| && steps[i].Enqueue? && steps[k].Claim?
    requires steps[i].id in states[i].conversations && a == |states[i].conversations[steps[i].id].messages|
    requires steps[k].id == steps[i].id && steps[k].index == a
    ensures var id := steps[i].id; id in states[k + 1].conversations && a < |states[k + 1].conversations[id].messages|
    ensures var id, message := steps[i].id, steps[i].message;
            var c := states[k + 1].conversations[id];
            var r := Snapshot(c, c.messages[a].id);
            && r.Ok? && r.value.messages != []
            && var m := r.value.messages[|r.value.messages| - 1];
               && m.id == message && m.role.User? && m.request == Some(steps[i].request)
               && (Unedited(states, steps, i + 1, k, id, message) ==> m.body == steps[i].body)
               && forall e :: i < e < k && IsLatestEdit(states, steps, e, k, id, message) ==> m.body == steps[e].edit.value
  {
    hide Inv, Unedited, NewText, Snapshot, IsLatestEdit, History;
    TextIsTheLatest(states, steps, i, k, a);
    ClaimDispatches(states, steps, k);
  }

  lemma ClaimDispatches(states: seq<Store>, steps: seq<Step>, k: nat)
    requires History(states, steps) && k < |steps| && steps[k].Claim?
    ensures var id, index := steps[k].id, steps[k].index;
            && id in states[k].conversations && index < |states[k].conversations[id].messages|
            && id in states[k + 1].conversations && index < |states[k + 1].conversations[id].messages|
            && var m, c := states[k].conversations[id].messages[index], states[k + 1].conversations[id];
               var r := Snapshot(c, c.messages[index].id);
               && r.Ok? && r.value.messages != []
               && var last := r.value.messages[|r.value.messages| - 1];
                  last.id == m.id && last.request == m.request && last.body == m.body && last.role.User?
  {
    hide Inv, Snapshot, Claimed, JustClaimed;
    HistoryIsSound(states, steps);
    RunStep(states, steps, k);
    var s, step := states[k], steps[k];
    assert History(states[..k + 1], steps[..k]) && states[..k + 1][|steps[..k]|] == s by { Prefix(states, steps, k); }
    assert Reachable(s);
    DispatchedHistory(s, step.host, step.id, step.index, step.session, step.reply, step.now);
    ClaimedHasStarted(s.conversations[step.id], step.index, step.session, step.reply, step.now);
    var c := states[k + 1].conversations[step.id];
    assert c == Claimed(s.conversations[step.id], step.index, step.session, step.reply, step.now);
    StripKeepsText(c.messages[step.index]);
  }

  lemma StripKeepsText(m: Message)
    ensures var r := Strip(m); r.id == m.id && r.request == m.request && r.body == m.body && r.role == m.role
  {
  }

  lemma Prefix(states: seq<Store>, steps: seq<Step>, k: nat)
    requires History(states, steps) && k <= |steps|
    ensures History(states[..k + 1], steps[..k])
  {
    hide Enabled, Apply;
  }
}
