/**
 Every edit keeps a conversation sound and only moves it forward (Evolves). Each lemma is
 about one edit on any sound conversation; QueueProtocol combines them over whole runs.
 */
module ConversationEdits {
  import opened Options
  import opened Conversations

  /** What an edit that neither adds a message nor starts a turn may do. */
  ghost predicate Settles(c: Conversation, c': Conversation) {
    && Evolves(c, c')
    && |c'.messages| == |c.messages|
    && QueuedAt(c') <= QueuedAt(c)
    && (c'.active.Some? ==> c'.active == c.active)
    && (forall i :: 0 <= i < |c.messages| ==> c'.messages[i].session == c.messages[i].session)
  }

  lemma SubsetSize<T>(a: set<T>, b: set<T>)
    requires a <= b
    ensures |a| <= |b|
  {
    if a == {} {
    } else {
      var x :| x in a;
      SubsetSize(a - {x}, b - {x});
    }
  }

  /** The structural half of Sound follows from Settles alone. */
  lemma SettledStructure(c: Conversation, c': Conversation)
    requires Sound(c) && Settles(c, c')
    ensures UniqueIds(c'.messages) && UniqueRequests(c'.messages) && SequencesAscend(c'.messages)
    ensures |c'.messages| + |QueuedAt(c')| < MAX_MESSAGES
  {
    var ms, ms' := c.messages, c'.messages;
    assert forall i :: 0 <= i < |ms| ==> Follows(ms[i], ms'[i]);
    SubsetSize(QueuedAt(c'), QueuedAt(c));
  }

  lemma QueuedIsUser(c: Conversation, i: nat)
    requires Sound(c) && i < |c.messages| && Waiting(c.messages[i])
    ensures c.messages[i].role.User? && c.messages[i].session.None?
    ensures c.messages[i].sequence.Some? && c.messages[i].request.Some?
  {
    assert MessageShape(c.messages[i]);
  }

  lemma RecoveredIsSound(c: Conversation)
    requires Sound(c)
    ensures Sound(Recovered(c)) && Settles(c, Recovered(c)) && Recovered(c).active.None?
    ensures QueuedAt(Recovered(c)) == QueuedAt(c)
  {
    var c' := Recovered(c);
    forall i | 0 <= i < |c.messages|
      ensures Follows(c.messages[i], c'.messages[i]) && MessageShape(c'.messages[i])
    {
      assert MessageShape(c.messages[i]);
    }
    SettledStructure(c, c');
  }

  lemma NotStartedIsSound(c: Conversation, u: nat, error: string)
    requires Sound(c) && u < |c.messages| && Waiting(c.messages[u])
    ensures Sound(NotStarted(c, u, error)) && Settles(c, NotStarted(c, u, error))
    ensures QueuedAt(NotStarted(c, u, error)) == QueuedAt(c) - {u}
  {
    var c' := NotStarted(c, u, error);
    assert MessageShape(c.messages[u]);
    forall i | 0 <= i < |c.messages|
      ensures Follows(c.messages[i], c'.messages[i]) && MessageShape(c'.messages[i])
    {
      assert MessageShape(c.messages[i]);
    }
    SettledStructure(c, c');
    TurnSurvives(c, c');
  }

  /** An edit that touches no live message and makes none live leaves the turn in place. */
  lemma TurnSurvives(c: Conversation, c': Conversation)
    requires TurnShape(c) && c'.active == c.active && |c'.messages| == |c.messages|
    requires forall i :: 0 <= i < |c.messages| ==> Follows(c.messages[i], c'.messages[i])
    requires forall i :: 0 <= i < |c.messages| ==> c'.messages[i].session == c.messages[i].session
    requires forall i :: 0 <= i < |c.messages| && Live(c.messages[i]) ==> c'.messages[i] == c.messages[i]
    requires forall i :: 0 <= i < |c.messages| && Live(c'.messages[i]) ==> Live(c.messages[i])
    ensures TurnShape(c')
    ensures forall u: nat, a: nat, x :: TurnAt(c, u, a, x) ==> TurnAt(c', u, a, x)
  {
    forall u: nat, a: nat, x | TurnAt(c, u, a, x) ensures TurnAt(c', u, a, x) {
    }
    if c.active.Some? {
      var u: nat, a: nat :| TurnAt(c, u, a, c.active.value);
      assert TurnAt(c', u, a, c.active.value);
    }
  }

  lemma MutatedIsSound(c: Conversation, id: Id, request: Id, expected: string, body: Option<string>)
    requires Sound(c) && Mutate(c, id, request, expected, body).Applied?
    ensures var c' := Mutate(c, id, request, expected, body).conversation;
            Sound(c') && Settles(c, c') && c'.active == c.active
    ensures var c' := Mutate(c, id, request, expected, body).conversation;
            forall u: nat, a: nat, x :: TurnAt(c, u, a, x) ==> TurnAt(c', u, a, x)
  {
    var c' := Mutate(c, id, request, expected, body).conversation;
    var u := FindUser(c.messages, id).value;
    assert MessageShape(c.messages[u]);
    forall i | 0 <= i < |c.messages|
      ensures Follows(c.messages[i], c'.messages[i]) && MessageShape(c'.messages[i])
    {
      assert MessageShape(c.messages[i]);
    }
    SettledStructure(c, c');
    TurnSurvives(c, c');
  }

  lemma FindsItself(ms: seq<Message>, i: nat)
    requires UniqueIds(ms) && i < |ms|
    ensures Find(ms, ms[i].id) == Some(i)
  {
    var r := Find(ms, ms[i].id);
    assert r.Some?;
  }

  lemma ProgressTouchesOnlyTheReply(c: Conversation, a: nat, session: Id, update: Option<string>)
    requires UniqueIds(c.messages) && c.active == Some(session) && a < |c.messages|
    ensures var c' := Progressed(c, c.messages[a].id, session, update);
            && c' == c.(messages := c'.messages) && |c'.messages| == |c.messages|
            && c'.messages[a] == c.messages[a].(status := Running, progress := if update.Some? then update else c.messages[a].progress)
            && forall k :: 0 <= k < |c.messages| && k != a ==> c'.messages[k] == c.messages[k]
  {
    FindsItself(c.messages, a);
  }

  lemma ProgressedIsSound(c: Conversation, u: nat, a: nat, session: Id, update: Option<string>)
    requires Sound(c) && c.active == Some(session) && TurnAt(c, u, a, session)
    ensures var c' := Progressed(c, c.messages[a].id, session, update);
            Sound(c') && Settles(c, c') && TurnAt(c', u, a, session) && c'.active == c.active
    ensures QueuedAt(Progressed(c, c.messages[a].id, session, update)) == QueuedAt(c)
  {
    hide Progressed;
    ProgressTouchesOnlyTheReply(c, a, session, update);
    var c' := Progressed(c, c.messages[a].id, session, update);
    forall i | 0 <= i < |c.messages|
      ensures Follows(c.messages[i], c'.messages[i]) && MessageShape(c'.messages[i])
    {
      assert MessageShape(c.messages[i]);
    }
    assert QueuedAt(c') == QueuedAt(c);
    SettledStructure(c, c');
    assert TurnAt(c', u, a, session);
  }

  /** A worker's result changes exactly the two messages of its turn. */
  lemma FinishedTouchesOnlyTheTurn(c: Conversation, u: nat, a: nat, session: Id, output: Option<Output>, status: Status,
                                   error: Option<string>)
    requires UniqueIds(c.messages) && c.active == Some(session) && TurnAt(c, u, a, session)
    ensures var ms := Finished(c, c.messages[a].id, session, output, status, error).messages;
            && |ms| == |c.messages|
            && ms[u] == c.messages[u].(status := status)
            && ms[a] == FinishReply(c.messages[a], output, status, error)
            && forall k :: 0 <= k < |c.messages| && k != u && k != a ==> ms[k] == c.messages[k]
  {
    FindsItself(c.messages, a);
    var filled := FillReply(c.messages, c.messages[a].id, output, status, error);
    assert filled == c.messages[a := FinishReply(c.messages[a], output, status, error)];
    assert filled[u] == c.messages[u];
    assert forall k :: 0 <= k < |c.messages| && k != u && k != a ==> filled[k].session != Some(session);
  }

  lemma FinishedIsSound(c: Conversation, u: nat, a: nat, session: Id, output: Option<Output>, interrupted: bool, error: Option<string>)
    requires Sound(c) && c.active == Some(session) && TurnAt(c, u, a, session)
    ensures var c' := Finished(c, c.messages[a].id, session, output, Outcome(interrupted, error), error);
            && Sound(c') && Settles(c, c') && c'.active.None? && QueuedAt(c') == QueuedAt(c)
  {
    var status := Outcome(interrupted, error);
    var c' := Finished(c, c.messages[a].id, session, output, status, error);
    FinishedTouchesOnlyTheTurn(c, u, a, session, output, status, error);
    forall i | 0 <= i < |c.messages|
      ensures Follows(c.messages[i], c'.messages[i]) && MessageShape(c'.messages[i]) && !Live(c'.messages[i])
      ensures c'.messages[i].session == c.messages[i].session && (Waiting(c'.messages[i]) <==> Waiting(c.messages[i]))
    {
      assert MessageShape(c.messages[i]);
    }
    assert QueuedAt(c') == QueuedAt(c);
    SettledStructure(c, c');
  }

  // ---------------------------------------------------------------- edits that add a message

  lemma AppendedQueue(c: Conversation, m: Message)
    ensures QueuedAt(Enqueued(c, m)) == QueuedAt(c) + (if Waiting(m) then {|c.messages|} else {})
  {
    var c' := Enqueued(c, m);
    forall i: nat ensures i in QueuedAt(c') <==> i in QueuedAt(c) + (if Waiting(m) then {|c.messages|} else {}) {
      if i < |c.messages| { assert c'.messages[i] == c.messages[i]; }
    }
  }

  lemma EnqueuedIsSound(c: Conversation, id: Id, request: Id, body: string, sequence: nat, now: int)
    requires Sound(c)
    requires |c.messages| + |QueuedAt(c)| < MAX_TURN_SLOTS
    requires forall i :: 0 <= i < |c.messages| ==> c.messages[i].id != id
    requires forall i :: 0 <= i < |c.messages| ==> !Asked(c.messages[i], request)
    requires forall i :: 0 <= i < |c.messages| && c.messages[i].sequence.Some? ==> c.messages[i].sequence.value < sequence
    ensures Sound(Enqueued(c, NewRequest(id, request, body, sequence, now)))
    ensures Evolves(c, Enqueued(c, NewRequest(id, request, body, sequence, now)))
    ensures QueuedAt(Enqueued(c, NewRequest(id, request, body, sequence, now))) == QueuedAt(c) + {|c.messages|}
    ensures forall u: nat, a: nat, x :: TurnAt(c, u, a, x) ==> TurnAt(Enqueued(c, NewRequest(id, request, body, sequence, now)), u, a, x)
  {
    var m := NewRequest(id, request, body, sequence, now);
    var c' := Enqueued(c, m);
    AppendedQueue(c, m);
    AppendKeepsOrder(c.messages, m);
    AppendKeepsTurn(c, m);
    assert |QueuedAt(c')| == |QueuedAt(c)| + 1;
    forall i | 0 <= i < |c'.messages| ensures MessageShape(c'.messages[i]) {
      if i < |c.messages| { assert MessageShape(c.messages[i]); }
    }
    assert forall i :: 0 <= i < |c.messages| ==> c'.messages[i] == c.messages[i];
  }

  lemma AppendKeepsOrder(ms: seq<Message>, m: Message)
    requires UniqueIds(ms) && UniqueRequests(ms) && SequencesAscend(ms)
    requires m.role.User? && m.request.Some? && m.sequence.Some?
    requires forall i :: 0 <= i < |ms| ==> ms[i].id != m.id && !Asked(ms[i], m.request.value)
    requires forall i :: 0 <= i < |ms| && ms[i].sequence.Some? ==> ms[i].sequence.value < m.sequence.value
    ensures UniqueIds(ms + [m]) && UniqueRequests(ms + [m]) && SequencesAscend(ms + [m])
  {
  }

  lemma AppendKeepsTurn(c: Conversation, m: Message)
    requires TurnShape(c) && !Live(m) && m.session.None?
    ensures TurnShape(Enqueued(c, m))
    ensures forall u: nat, a: nat, x :: TurnAt(c, u, a, x) ==> TurnAt(Enqueued(c, m), u, a, x)
  {
    var c' := Enqueued(c, m);
    forall u: nat, a: nat, x | TurnAt(c, u, a, x) ensures TurnAt(c', u, a, x) {
    }
    if c.active.Some? {
      var u: nat, a: nat :| TurnAt(c, u, a, c.active.value);
      assert TurnAt(c', u, a, c.active.value);
    }
  }

  lemma ClaimedIsSound(c: Conversation, u: nat, session: Id, reply: Id, now: int)
    requires Sound(c) && c.active.None? && u < |c.messages| && Waiting(c.messages[u])
    requires forall i :: 0 <= i < |c.messages| ==> c.messages[i].id != reply && c.messages[i].session != Some(session)
    ensures Sound(Claimed(c, u, session, reply, now))
    ensures Evolves(c, Claimed(c, u, session, reply, now))
    ensures TurnAt(Claimed(c, u, session, reply, now), u, |c.messages|, session)
    ensures QueuedAt(Claimed(c, u, session, reply, now)) == QueuedAt(c) - {u}
  {
    var c' := Claimed(c, u, session, reply, now);
    assert MessageShape(c.messages[u]);
    assert u in QueuedAt(c);
    forall i: nat ensures i in QueuedAt(c') <==> i in QueuedAt(c) - {u} {
      if i < |c.messages| && i != u { assert c'.messages[i] == c.messages[i]; }
    }
    assert QueuedAt(c') == QueuedAt(c) - {u};
    forall i | 0 <= i < |c.messages| ensures Follows(c.messages[i], c'.messages[i]) {
    }
    forall i | 0 <= i < |c'.messages| ensures MessageShape(c'.messages[i]) {
      if i < |c.messages| { assert MessageShape(c.messages[i]); }
    }
    assert TurnAt(c', u, |c.messages|, session);
  }

  // ---------------------------------------------------------------- requests take effect once

  /** Sending a request id again, however the message fared since, finds the message it made. */
  lemma ResendFindsTheOriginal(c: Conversation, i: nat, c': Conversation)
    requires Sound(c) && Sound(c') && Evolves(c, c')
    requires i < |c.messages| && c.messages[i].role.User? && c.messages[i].request.Some?
    ensures FindRequest(c'.messages, c.messages[i].request.value, 0) == Some(i)
    ensures c'.messages[i].submitted == c.messages[i].submitted
  {
    assert Follows(c.messages[i], c'.messages[i]);
    var r := FindRequest(c'.messages, c.messages[i].request.value, 0);
    assert Asked(c'.messages[i], c.messages[i].request.value);
  }

  /** Once a mutation request has taken effect it never takes effect again, in any later version. */
  lemma MutationTakesEffectOnce(c: Conversation, id: Id, request: Id, expected: string, body: Option<string>, later: Conversation,
                                id': Id, expected': string, body': Option<string>)
    requires Mutate(c, id, request, expected, body).Applied?
    requires Evolves(Mutate(c, id, request, expected, body).conversation, later)
    ensures !Mutate(later, id', request, expected', body').Applied?
  {
    var c' := Mutate(c, id, request, expected, body).conversation;
    var k := |c.mutations|;
    assert later.mutations[k] == c'.mutations[k] == Receipt(request, id, expected, body);
    assert FindReceipt(later.mutations, request, 0).Some?;
  }

  /** A replay is recognised only as the identical request and only while it is the latest one on its message. */
  lemma ReplayIsTheLatestIdenticalRequest(c: Conversation, id: Id, request: Id, expected: string, body: Option<string>)
    requires Sound(c)
    ensures Mutate(c, id, request, expected, body).Replayed? <==>
            && !(body.Some? && c.workItem)
            && Receipt(request, id, expected, body) in c.mutations
            && exists u :: 0 <= u < |c.messages| && c.messages[u].id == id && c.messages[u].role.User?
                 && c.messages[u].lastMutation == Some(request)
  {
    var wanted := Receipt(request, id, expected, body);
    if wanted in c.mutations {
      var k :| 0 <= k < |c.mutations| && c.mutations[k] == wanted;
      var r := FindReceipt(c.mutations, request, 0);
      assert r.value == k;
    }
    var f := FindUser(c.messages, id);
    if u :| 0 <= u < |c.messages| && c.messages[u].id == id && c.messages[u].role.User? && c.messages[u].lastMutation == Some(request) {
      assert f == Some(u);
    }
  }
}
