/**
 What each edit leaves in a stored conversation, told from the files before and after it, field by field, and
 proved of the edits: what is written, what stays, and exactly when an edit or a cancel takes effect.
 */
module EditEffects {
  import opened Options
  import opened Conversations
  import opened ConversationEdits

  predicate SamePlace(c: Conversation, c': Conversation) {
    c'.id == c.id && c'.workspace == c.workspace && c'.repository == c.repository && c'.provider == c.provider && c'.workItem == c.workItem
  }

  /** What no edit of a message changes. */
  predicate SameRequest(m: Message, m': Message) {
    m'.id == m.id && m'.request == m.request && m'.submitted == m.submitted && m'.sequence == m.sequence
    && m'.role == m.role && m'.created == m.created
  }

  ghost predicate SameBut(ms: seq<Message>, ms': seq<Message>, u: nat) {
    |ms'| == |ms| && forall k :: 0 <= k < |ms| && k != u ==> ms'[k] == ms[k]
  }

  // ---------------------------------------------------------------- what is left in the file

  /** One queued request has been added at the end, with the text that was sent; all else is as it was. */
  ghost predicate HasNewRequest(c: Conversation, c': Conversation, id: Id, request: Id, text: string, sequence: nat, now: int) {
    && SamePlace(c, c') && c'.active == c.active && c'.mutations == c.mutations
    && |c'.messages| == |c.messages| + 1 && (forall k :: 0 <= k < |c.messages| ==> c'.messages[k] == c.messages[k])
    && var m := c'.messages[|c.messages|];
       && m.role.User? && m.status.Queued? && m.body == text && m.submitted == Some(text) && m.request == Some(request)
       && m.id == id && m.sequence == Some(sequence) && m.created == now
       && m.session.None? && m.error.None? && m.progress.None? && m.diagnostic.None? && m.lastMutation.None? && m.position.None?
  }

  /** The message that an edit or cancel means: a queued one with the id and with the text that its sender expects. */
  predicate Meant(m: Message, id: Id, expected: string) {
    m.id == id && m.role.User? && m.status.Queued? && m.body == expected
  }

  /** A new request for a message that still waits as its sender expects. */
  ghost predicate IsWanted(c: Conversation, id: Id, request: Id, expected: string, body: Option<string>) {
    && (body.Some? ==> !c.workItem)
    && (exists u :: 0 <= u < |c.messages| && Meant(c.messages[u], id, expected))
    && (forall r :: 0 <= r < |c.mutations| ==> c.mutations[r].request != request)
  }

  /** There is room for its receipt, too. */
  ghost predicate MayChange(c: Conversation, id: Id, request: Id, expected: string, body: Option<string>) {
    IsWanted(c, id, request, expected, body) && |c.mutations| < 1024
  }

  /** The same request, sent again while it is still the last one that changed its message. */
  ghost predicate IsRepeated(c: Conversation, id: Id, request: Id, expected: string, body: Option<string>) {
    && (body.Some? ==> !c.workItem)
    && Receipt(request, id, expected, body) in c.mutations
    && exists u :: 0 <= u < |c.messages| && c.messages[u].id == id && c.messages[u].role.User? && c.messages[u].lastMutation == Some(request)
  }

  /** A cancelled message keeps its text and is no longer queued; an edited one has the new text and still waits. */
  ghost predicate HasChange(c: Conversation, c': Conversation, id: Id, request: Id, expected: string, body: Option<string>) {
    && SamePlace(c, c') && c'.active == c.active && c'.mutations == c.mutations + [Receipt(request, id, expected, body)]
    && |c'.messages| == |c.messages|
    && forall k :: 0 <= k < |c.messages| ==>
         var m, m' := c.messages[k], c'.messages[k];
         if m.id != id then m' == m
         else
           && SameRequest(m, m') && m'.session == m.session && m'.error == m.error && m'.progress == m.progress && m'.diagnostic == m.diagnostic
           && m'.lastMutation == Some(request) && m'.position.None?
           && (if body.Some? then m'.status.Queued? && m'.body == body.value else m'.status.Cancelled? && m'.body == m.body)
  }

  /** A turn that nobody runs any more: its live messages are interrupted and say why, and nothing else has changed. */
  ghost predicate HasRecovered(c: Conversation, c': Conversation) {
    && SamePlace(c, c') && c'.active.None? && c'.mutations == c.mutations && |c'.messages| == |c.messages|
    && forall k :: 0 <= k < |c.messages| ==>
         var m, m' := c.messages[k], c'.messages[k];
         if !m.status.Pending? && !m.status.Running? then m' == m
         else
           && SameRequest(m, m') && m'.status.Interrupted? && m'.error == Some(HOST_STOPPED) && m'.body == m.body && m'.session == m.session
           && m'.progress == m.progress && m'.diagnostic == m.diagnostic && m'.lastMutation == m.lastMutation && m'.position == m.position
  }

  /** The message runs in the new session, an empty reply to it waits for the agent, and the session is the active one. */
  ghost predicate HasStarted(c: Conversation, c': Conversation, u: nat, session: Id, reply: Id, now: int) {
    && SamePlace(c, c') && c'.active == Some(session) && c'.mutations == c.mutations
    && u < |c.messages| && |c'.messages| == |c.messages| + 1
    && (forall k :: 0 <= k < |c.messages| && k != u ==> c'.messages[k] == c.messages[k])
    && (var m, m' := c.messages[u], c'.messages[u];
        && SameRequest(m, m') && m'.status.Running? && m'.session == Some(session) && m'.position.None? && m'.body == m.body
        && m'.error == m.error && m'.progress == m.progress && m'.diagnostic == m.diagnostic && m'.lastMutation == m.lastMutation)
    && var r := c'.messages[|c.messages|];
       && r.role.Assistant? && r.status.Pending? && r.id == reply && r.request == c.messages[u].request && r.session == Some(session)
       && r.created == now && r.body == "" && r.submitted.None? && r.sequence.None? && r.position.None? && r.lastMutation.None?
       && r.error.None? && r.progress.None? && r.diagnostic.None?
  }

  /** The message has failed with the error, and nothing else has changed. */
  ghost predicate HasFailed(c: Conversation, c': Conversation, u: nat, error: string) {
    && SamePlace(c, c') && c'.active == c.active && c'.mutations == c.mutations
    && u < |c.messages| && SameBut(c.messages, c'.messages, u)
    && var m, m' := c.messages[u], c'.messages[u];
       && SameRequest(m, m') && m'.status.Failed? && m'.error == Some(error) && m'.body == m.body && m'.session == m.session
       && m'.position == m.position && m'.progress == m.progress && m'.diagnostic == m.diagnostic && m'.lastMutation == m.lastMutation
  }

  /** The reply runs and shows the update, if there is one; nothing else has changed. */
  ghost predicate HasProgress(c: Conversation, c': Conversation, a: nat, update: Option<string>) {
    && SamePlace(c, c') && c'.active == c.active && c'.mutations == c.mutations
    && a < |c.messages| && SameBut(c.messages, c'.messages, a)
    && var m, m' := c.messages[a], c'.messages[a];
       && SameRequest(m, m') && m'.status.Running? && m'.progress == (if update.Some? then update else m.progress)
       && m'.body == m.body && m'.session == m.session && m'.error == m.error && m'.diagnostic == m.diagnostic
       && m'.position == m.position && m'.lastMutation == m.lastMutation
  }

  /** A blank text is not shown. */
  ghost predicate ShownAs(text: string, shown: Option<string>) {
    if exists i :: 0 <= i < |text| && !Space(text[i]) then shown == Some(text) else shown.None?
  }

  /** How a turn went: stopped, or else in error, or else completed. */
  predicate EndsWith(status: Status, interrupted: bool, error: Option<string>) {
    && (status.Interrupted? <==> interrupted)
    && (status.Failed? <==> !interrupted && error.Some?)
    && (status.Completed? <==> !interrupted && error.None?)
  }

  /** The turn at u and a is over: both messages say how, the reply has what the agent put out, and nothing else has changed. */
  ghost predicate HasEnded(c: Conversation, c': Conversation, u: nat, a: nat, output: Option<Output>, interrupted: bool, error: Option<string>) {
    && SamePlace(c, c') && c'.active.None? && c'.mutations == c.mutations
    && u < |c.messages| && a < |c.messages| && |c'.messages| == |c.messages|
    && (forall k :: 0 <= k < |c.messages| && k != u && k != a ==> c'.messages[k] == c.messages[k])
    && (var m, m' := c.messages[u], c'.messages[u];
        && SameRequest(m, m') && EndsWith(m'.status, interrupted, error) && m'.body == m.body && m'.session == m.session
        && m'.error == m.error && m'.progress == m.progress && m'.diagnostic == m.diagnostic
        && m'.position == m.position && m'.lastMutation == m.lastMutation)
    && var r, r' := c.messages[a], c'.messages[a];
       && SameRequest(r, r') && EndsWith(r'.status, interrupted, error) && r'.error == error && r'.session == r.session
       && r'.position == r.position && r'.lastMutation == r.lastMutation
       && (match output
           case None => r'.body == r.body && r'.progress == r.progress && r'.diagnostic == r.diagnostic
           case Some(o) => r'.body == o.body && ShownAs(o.progress, r'.progress) && ShownAs(o.diagnostic, r'.diagnostic))
  }

  // ---------------------------------------------------------------- and what the edits do

  lemma EnqueuedHasRequest(c: Conversation, id: Id, request: Id, text: string, sequence: nat, now: int)
    ensures HasNewRequest(c, Enqueued(c, NewRequest(id, request, text, sequence, now)), id, request, text, sequence, now)
  {
  }

  lemma RecoveredHasRecovered(c: Conversation)
    ensures HasRecovered(c, Recovered(c))
  {
  }

  lemma ClaimedHasStarted(c: Conversation, u: nat, session: Id, reply: Id, now: int)
    requires u < |c.messages|
    ensures HasStarted(c, Claimed(c, u, session, reply, now), u, session, reply, now)
  {
  }

  lemma NotStartedHasFailed(c: Conversation, u: nat, error: string)
    requires u < |c.messages|
    ensures HasFailed(c, NotStarted(c, u, error), u, error)
  {
  }

  lemma ProgressedHasProgress(c: Conversation, a: nat, session: Id, update: Option<string>)
    requires UniqueIds(c.messages) && c.active == Some(session) && a < |c.messages|
    ensures HasProgress(c, Progressed(c, c.messages[a].id, session, update), a, update)
  {
    ProgressTouchesOnlyTheReply(c, a, session, update);
  }

  lemma FinishedHasEnded(c: Conversation, u: nat, a: nat, session: Id, output: Option<Output>, interrupted: bool, error: Option<string>)
    requires UniqueIds(c.messages) && c.active == Some(session) && TurnAt(c, u, a, session)
    ensures HasEnded(c, Finished(c, c.messages[a].id, session, output, Outcome(interrupted, error), error), u, a, output, interrupted, error)
  {
    FinishedTouchesOnlyTheTurn(c, u, a, session, output, Outcome(interrupted, error), error);
  }

  /** The answer to an edit or cancel, and the conversation that it makes if it takes effect. */
  ghost predicate ChangeMade(c: Conversation, m: Mutation, id: Id, request: Id, expected: string, body: Option<string>) {
    && (m.Applied? <==> MayChange(c, id, request, expected, body))
    && (m.Replayed? <==> IsRepeated(c, id, request, expected, body))
    && (m.Limit? <==> IsWanted(c, id, request, expected, body) && |c.mutations| >= 1024)
    && (m.Applied? ==> HasChange(c, m.conversation, id, request, expected, body))
  }

  /** An edit or cancel takes effect if and only if it may, and leaves exactly the change. */
  lemma MutateExactly(c: Conversation, id: Id, request: Id, expected: string, body: Option<string>)
    requires Sound(c)
    ensures ChangeMade(c, Mutate(c, id, request, expected, body), id, request, expected, body)
  {
    ReplayIsTheLatestIdenticalRequest(c, id, request, expected, body);
    hide Sound;
    UserWithId(c, id);
    ReceiptFound(c.mutations, request);
    var f := FindUser(c.messages, id);
    if f.Some? { assert Meant(c.messages[f.value], id, c.messages[f.value].body) <==> Waiting(c.messages[f.value]); }
    hide FindUser, FindReceipt, HasChange;
    AppliedHasChange(c, id, request, expected, body);
  }

  lemma AppliedHasChange(c: Conversation, id: Id, request: Id, expected: string, body: Option<string>)
    requires Sound(c)
    ensures var m := Mutate(c, id, request, expected, body);
            m.Applied? ==> HasChange(c, m.conversation, id, request, expected, body)
  {
    UserWithId(c, id);
    hide Sound, FindUser, FindReceipt;
  }

  lemma UserWithId(c: Conversation, id: Id)
    requires Sound(c)
    ensures var f := FindUser(c.messages, id);
            && (f.Some? ==> f.value < |c.messages| && c.messages[f.value].id == id && c.messages[f.value].role.User?)
            && (forall k :: 0 <= k < |c.messages| && c.messages[k].id == id ==>
                  (f.Some? ==> k == f.value) && (f.None? ==> !c.messages[k].role.User?))
  {
  }

  lemma ReceiptFound(rs: seq<Receipt>, request: Id)
    ensures FindReceipt(rs, request, 0).Some? <==> exists r :: 0 <= r < |rs| && rs[r].request == request
  {
  }
}
