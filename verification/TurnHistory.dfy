/**
 The conversation snapshot that a claimed turn is dispatched with: what the agent is shown as
 its history, and why it is complete and settled.
 */
module TurnHistory {
  import opened Options
  import opened Conversations
  import opened ConversationEdits
  import opened QueueProtocol
  import opened QueueSafety
  import opened QueueRuns

  /** A non-user message that answers the user message: by request id, or by session where old replies have none. */
  predicate Answers(m: Message, user: Message) {
    && !m.role.User?
    && (|| (m.request.Some? && m.request == user.request)
        || (m.request.None? && m.session.Some? && m.session == user.session))
  }

  predicate Included(user: Message, sequence: nat) {
    user.role.User? && !user.status.Cancelled? && (user.sequence.None? || user.sequence.value <= sequence)
  }

  function Strip(m: Message): Message {
    m.(submitted := None, lastMutation := None, position := None)
  }

  /** The answers to user among the first k messages, in order. */
  function Replies(ms: seq<Message>, user: Message, k: nat): seq<Message>
    requires k <= |ms|
  {
    if k == 0 then [] else Replies(ms, user, k - 1) + (if Answers(ms[k - 1], user) then [ms[k - 1]] else [])
  }

  function Entry(ms: seq<Message>, user: Message, sequence: nat, id: Id): seq<Message> {
    if !Included(user, sequence) then []
    else [user] + (if user.id == id then [] else Replies(ms, user, |ms|))
  }

  /** The entries of the first k messages: each included user message, followed by its answers. */
  function Entries(ms: seq<Message>, sequence: nat, id: Id, k: nat): seq<Message>
    requires k <= |ms|
  {
    if k == 0 then [] else Entries(ms, sequence, id, k - 1) + Entry(ms, ms[k - 1], sequence, id)
  }

  function StripAll(ms: seq<Message>): seq<Message> {
    seq(|ms|, i requires 0 <= i < |ms| => Strip(ms[i]))
  }

  datatype Missing = MessageMissing | SequenceMissing

  function Snapshot(c: Conversation, id: Id): Result<Conversation, Missing> {
    match Find(c.messages, id)
    case None => Err(MessageMissing)
    case Some(current) =>
      match c.messages[current].sequence
      case None => Err(SequenceMissing)
      case Some(sequence) =>
        Ok(c.(messages := StripAll(Entries(c.messages, sequence, id, |c.messages|)), mutations := []))
  }

  method TurnSnapshot(c: Conversation, id: Id) returns (r: Result<Conversation, Missing>)
    ensures r == Snapshot(c, id)
  {
    var current := Find(c.messages, id);
    if current.None? { return Err(MessageMissing); }
    if c.messages[current.value].sequence.None? { return Err(SequenceMissing); }
    var messages := GatherEntries(c.messages, c.messages[current.value].sequence.value, id);
    messages := StripEntries(messages);
    r := Ok(c.(messages := messages, mutations := []));
  }

  method GatherEntries(ms: seq<Message>, sequence: nat, id: Id) returns (messages: seq<Message>)
    ensures messages == Entries(ms, sequence, id, |ms|)
  {
    hide Entry;
    messages := [];
    var i := 0;
    while i < |ms|
      invariant i <= |ms| && messages == Entries(ms, sequence, id, i)
    {
      var entry := GatherEntry(ms, ms[i], sequence, id);
      messages := messages + entry;
      i := i + 1;
    }
  }

  method GatherEntry(ms: seq<Message>, user: Message, sequence: nat, id: Id) returns (entry: seq<Message>)
    ensures entry == Entry(ms, user, sequence, id)
  {
    hide Replies;
    if !user.role.User? || user.status.Cancelled? || (user.sequence.Some? && user.sequence.value > sequence) { return []; }
    entry := [user];
    if user.id != id {
      var replies := GatherReplies(ms, user);
      entry := entry + replies;
    } else {
      assert [user] + [] == [user];
    }
  }

  method GatherReplies(ms: seq<Message>, user: Message) returns (replies: seq<Message>)
    ensures replies == Replies(ms, user, |ms|)
  {
    replies := [];
    var k := 0;
    while k < |ms|
      invariant k <= |ms| && replies == Replies(ms, user, k)
    {
      if Answers(ms[k], user) { replies := replies + [ms[k]]; }
      k := k + 1;
    }
  }

  method StripEntries(plain: seq<Message>) returns (messages: seq<Message>)
    ensures messages == StripAll(plain)
  {
    messages := plain;
    var k := 0;
    while k < |messages|
      invariant k <= |messages| == |plain|
      invariant forall x :: 0 <= x < k ==> messages[x] == Strip(plain[x])
      invariant forall x :: k <= x < |messages| ==> messages[x] == plain[x]
    {
      messages := messages[k := Strip(messages[k])];
      k := k + 1;
    }
  }

  // ---------------------------------------------------------------- what is in the snapshot

  lemma {:induction false} RepliesAreTheAnswers(ms: seq<Message>, user: Message, k: nat, m: Message)
    requires k <= |ms|
    ensures m in Replies(ms, user, k) <==> exists j :: 0 <= j < k && ms[j] == m && Answers(m, user)
  {
    if k > 0 { RepliesAreTheAnswers(ms, user, k - 1, m); }
  }

  /** Entry k holds exactly one user message and the answers to it. */
  lemma {:induction false} EntriesAreExact(ms: seq<Message>, sequence: nat, id: Id, k: nat, m: Message)
    requires k <= |ms|
    ensures m in Entries(ms, sequence, id, k) <==>
            exists i :: 0 <= i < k && m in Entry(ms, ms[i], sequence, id)
  {
    hide Entry;
    if k > 0 {
      EntriesAreExact(ms, sequence, id, k - 1, m);
      assert m in Entries(ms, sequence, id, k) <==> m in Entries(ms, sequence, id, k - 1) || m in Entry(ms, ms[k - 1], sequence, id);
    }
  }

  /** Past the claimed message the snapshot gets nothing more, so the claimed message is its last entry. */
  lemma {:induction false} NothingAfterTheClaim(ms: seq<Message>, index: nat, k: nat)
    requires SequencesAscend(ms) && index < k <= |ms| && ms[index].role.User? && ms[index].sequence.Some?
    ensures Entries(ms, ms[index].sequence.value, ms[index].id, k)
            == Entries(ms, ms[index].sequence.value, ms[index].id, index) + Entry(ms, ms[index], ms[index].sequence.value, ms[index].id)
  {
    hide Entry;
    if k > index + 1 {
      EntryOfALaterOne(ms, index, k - 1);
      NothingAfterTheClaim(ms, index, k - 1);
    }
  }

  lemma EntryOfALaterOne(ms: seq<Message>, index: nat, k: nat)
    requires SequencesAscend(ms) && index < k < |ms| && ms[index].role.User? && ms[index].sequence.Some?
    ensures Entry(ms, ms[k], ms[index].sequence.value, ms[index].id) == []
  {
    if ms[k].role.User? { assert Earlier(ms[index].sequence, ms[k].sequence); }
  }

  /** What is known about a conversation right after one of its messages was claimed. */
  ghost predicate JustClaimed(c: Conversation, index: nat, session: Id) {
    && Sound(c) && c.active == Some(session)
    && (exists a: nat :: TurnAt(c, index, a, session))
    && c.messages[index].sequence.Some?
    && (forall k :: k in QueuedAt(c) ==> c.messages[k].sequence.value > c.messages[index].sequence.value)
  }

  /** Every claim leaves the conversation so: the claimed message was the least queued one of its workspace. */
  lemma ClaimsAreJustClaimed(s: Store, host: nat, id: Id, index: nat, session: Id, reply: Id, now: int)
    requires Inv(s) && CanClaim(s, id, index, session, reply)
    ensures JustClaimed(AfterClaim(s, host, id, index, session, reply, now).conversations[id], index, session)
  {
    hide Inv, CanClaim, Sound, Claimed, QueuedAt, TurnAt;
    ClaimIsEligible(s, id, index, session, reply);
    var c := s.conversations[id];
    FreshForClaim(s, id, index, session, reply);
    ClaimedIsSound(c, index, session, reply, now);
    ClaimedMessages(c, index, session, reply, now);
    var c' := Claimed(c, index, session, reply, now);
    assert TurnAt(c', index, |c.messages|, session);
    forall k | k in QueuedAt(c')
      ensures k < |c'.messages| && c'.messages[k].sequence.Some? && c'.messages[k].sequence.value > c'.messages[index].sequence.value
    {
      assert k in QueuedAt(c) && k != index;
      LaterInTheQueue(s, id, index, k);
    }
  }

  lemma ClaimIsEligible(s: Store, id: Id, index: nat, session: Id, reply: Id)
    requires Inv(s) && CanClaim(s, id, index, session, reply)
    ensures id in s.conversations && Eligible(s.conversations, id, index)
    ensures Sound(s.conversations[id]) && index < |s.conversations[id].messages| && Waiting(s.conversations[id].messages[index])
    ensures s.conversations[id].messages[index].sequence.Some? && s.conversations[id].messages[index].role.User?
  {
    assert ConversationsSound(s.conversations);
    QueuedIsUser(s.conversations[id], index);
  }

  lemma LaterInTheQueue(s: Store, id: Id, index: nat, k: nat)
    requires Inv(s) && Eligible(s.conversations, id, index) && k in QueuedAt(s.conversations[id]) && k != index
    ensures k < |s.conversations[id].messages|
    ensures var ms := s.conversations[id].messages;
            ms[k].sequence.Some? && ms[index].sequence.Some? && ms[k].sequence.value > ms[index].sequence.value
  {
    assert ConversationsSound(s.conversations) && TicketsUnique(s.conversations, s.tickets, s.counter);
    hide Inv, Sound, ConversationsSound, TicketsUnique;
    QueuedIsUser(s.conversations[id], k);
    QueuedIsUser(s.conversations[id], index);
    QueuedHasTicket(s.conversations, s.tickets, s.counter, id, k);
    QueuedHasTicket(s.conversations, s.tickets, s.counter, id, index);
  }

  lemma FreshForClaim(s: Store, id: Id, index: nat, session: Id, reply: Id)
    requires Inv(s) && CanClaim(s, id, index, session, reply)
    ensures var c := s.conversations[id];
            && c.active.None?
            && forall i :: 0 <= i < |c.messages| ==> c.messages[i].id != reply && c.messages[i].session != Some(session)
  {
    hide ConversationsSound, TicketsUnique, OneTurnPerWorkspace, QueuesBounded, WorkersOwnTheirTurn, ChildrenAccounted,
         LeasesExclusive, StartsInOrder;
    assert session !in s.homes;
  }

  /**
   The dispatched history is closed: the claimed message is its last entry, and every entry before
   it is settled. It holds a user message if and only if that message was not cancelled and was sent
   no later, and an answer if and only if it answers such a message.
   */
  lemma HistoryIsClosed(c: Conversation, index: nat, session: Id)
    requires JustClaimed(c, index, session)
    ensures var ms, q, id := c.messages, c.messages[index].sequence.value, c.messages[index].id;
            var h := Entries(ms, q, id, |ms|);
            && h != [] && h[|h| - 1] == ms[index]
            && (forall k :: 0 <= k < |h| - 1 ==> Terminal(h[k]) && h[k] != ms[index])
            && (forall i :: 0 <= i < |ms| && ms[i].role.User? ==> (ms[i] in h <==> Included(ms[i], q)))
            && (forall j :: 0 <= j < |ms| && !ms[j].role.User?
                  ==> (ms[j] in h <==> exists i :: 0 <= i < |ms| && i != index && Included(ms[i], q) && Answers(ms[j], ms[i])))
  {
    hide Entries, Entry, Answers, Included, TurnAt, Sound;
    SettledBeforeTheClaim(c, index, session);
    var ms, q, id := c.messages, c.messages[index].sequence.value, c.messages[index].id;
    var h := Entries(ms, q, id, |ms|);
    forall j | 0 <= j < |ms|
      ensures ms[j].role.User? ==> (ms[j] in h <==> Included(ms[j], q))
      ensures !ms[j].role.User?
              ==> (ms[j] in h <==> exists i :: 0 <= i < |ms| && i != index && Included(ms[i], q) && Answers(ms[j], ms[i]))
    {
      MembersOfHistory(ms, q, index, j);
    }
  }

  lemma SettledBeforeTheClaim(c: Conversation, index: nat, session: Id)
    requires JustClaimed(c, index, session)
    ensures index < |c.messages| && UniqueIds(c.messages)
    ensures var ms, q, id := c.messages, c.messages[index].sequence.value, c.messages[index].id;
            var h := Entries(ms, q, id, |ms|);
            && h != [] && h[|h| - 1] == ms[index]
            && (forall k :: 0 <= k < |h| - 1 ==> Terminal(h[k]) && h[k] != ms[index])
  {
    hide Answers, Entries;
    var ms, q, id := c.messages, c.messages[index].sequence.value, c.messages[index].id;
    var h := Entries(ms, q, id, |ms|);
    NothingAfterTheClaim(ms, index, |ms|);
    hide Sound;
    assert h == Entries(ms, q, id, index) + [ms[index]];
    hide Entry, Included;
    forall k | 0 <= k < |h| - 1 ensures Terminal(h[k]) && h[k] != ms[index] {
      assert h[k] in Entries(ms, q, id, index);
      EntriesAreExact(ms, q, id, index, h[k]);
      var i :| 0 <= i < index && h[k] in Entry(ms, ms[i], q, id);
      EntryIsSettled(c, index, session, i, h[k]);
    }
  }

  /** The answers to a user message come in the order of the conversation. */
  lemma {:induction false} RepliesInOrder(ms: seq<Message>, user: Message, j: nat, k: nat)
    requires j < k <= |ms| && Answers(ms[j], user)
    ensures |Replies(ms, user, j)| < |Replies(ms, user, k)| && Replies(ms, user, k)[|Replies(ms, user, j)|] == ms[j]
  {
    if j + 1 < k { RepliesInOrder(ms, user, j, k - 1); }
  }

  lemma {:induction false} EntriesStay(ms: seq<Message>, sequence: nat, id: Id, i: nat, k: nat)
    requires i < k <= |ms|
    ensures Entries(ms, sequence, id, i) + Entry(ms, ms[i], sequence, id) <= Entries(ms, sequence, id, k)
  {
    hide Entry;
    if i + 1 < k { EntriesStay(ms, sequence, id, i, k - 1); }
  }

  /** At `at` stands the user message, and right behind it all its answers and nothing else. */
  ghost predicate Threaded(h: seq<Message>, at: nat, user: Message, answers: seq<Message>) {
    && at + 1 + |answers| <= |h| && h[at] == user && h[at + 1..at + 1 + |answers|] == answers
    && (at + 1 + |answers| < |h| ==> h[at + 1 + |answers|].role.User?)
  }

  lemma StretchOf(h: seq<Message>, before: seq<Message>, user: Message, answers: seq<Message>)
    requires before + ([user] + answers) <= h
    ensures var at := |before|;
            at + 1 + |answers| <= |h| && h[at] == user && h[at + 1..at + 1 + |answers|] == answers
  {
    var b := before + ([user] + answers);
    assert h[..|b|] == b;
    assert h[|before|] == b[|before|];
    assert h[|before| + 1..|b|] == b[|before| + 1..];
  }

  lemma {:induction false} NextIsAUser(ms: seq<Message>, sequence: nat, id: Id, i: nat, k: nat)
    requires i <= k <= |ms|
    ensures |Entries(ms, sequence, id, i)| <= |Entries(ms, sequence, id, k)|
    ensures |Entries(ms, sequence, id, i)| < |Entries(ms, sequence, id, k)|
            ==> Entries(ms, sequence, id, k)[|Entries(ms, sequence, id, i)|].role.User?
  {
    if i < k {
      NextIsAUser(ms, sequence, id, i, k - 1);
      EntryBeginsWithAUser(ms, ms[k - 1], sequence, id);
    }
  }

  lemma EntryBeginsWithAUser(ms: seq<Message>, user: Message, sequence: nat, id: Id)
    ensures var e := Entry(ms, user, sequence, id); e != [] ==> e[0].role.User?
  {
  }

  /**
   The history follows the conversation: each message that was sent before the claimed one and not cancelled stands
   in it with its answers, in their order, right behind it, and before every later message.
   */
  lemma HistoryIsThreaded(c: Conversation, index: nat, session: Id, i: nat)
    requires JustClaimed(c, index, session) && i < |c.messages| && i != index
    requires Included(c.messages[i], c.messages[index].sequence.value)
    ensures var ms, q, id := c.messages, c.messages[index].sequence.value, c.messages[index].id;
            var h, at := Entries(ms, q, id, |ms|), |Entries(ms, q, id, i)|;
            && Threaded(h, at, ms[i], Replies(ms, ms[i], |ms|))
            && i < index
            && forall k :: i < k <= |ms| ==> |Entries(ms, q, id, k)| > at
  {
    hide Replies, Entries, Included, Sound;
    var ms, q, id := c.messages, c.messages[index].sequence.value, c.messages[index].id;
    IncludedIsEarlier(c, index, session, i);
    EntriesStay(ms, q, id, i, |ms|);
    StretchOf(Entries(ms, q, id, |ms|), Entries(ms, q, id, i), ms[i], Replies(ms, ms[i], |ms|));
    assert Entries(ms, q, id, i + 1) == Entries(ms, q, id, i) + Entry(ms, ms[i], q, id) by { EntriesUnfold(ms, q, id, i); }
    NextIsAUser(ms, q, id, i + 1, |ms|);
    forall k | i < k <= |ms| ensures |Entries(ms, q, id, k)| > |Entries(ms, q, id, i)| {
      EntriesStay(ms, q, id, i, k);
    }
  }

  lemma EntriesUnfold(ms: seq<Message>, sequence: nat, id: Id, i: nat)
    requires i < |ms|
    ensures Entries(ms, sequence, id, i + 1) == Entries(ms, sequence, id, i) + Entry(ms, ms[i], sequence, id)
  {
  }

  lemma IncludedIsEarlier(c: Conversation, index: nat, session: Id, i: nat)
    requires JustClaimed(c, index, session) && i < |c.messages| && i != index && Included(c.messages[i], c.messages[index].sequence.value)
    ensures i < index && c.messages[i].id != c.messages[index].id
  {
    var ms := c.messages;
    var a: nat :| TurnAt(c, index, a, session);
    assert index < i ==> Earlier(ms[index].sequence, ms[i].sequence);
  }

  lemma EntryIsSettled(c: Conversation, index: nat, session: Id, i: nat, m: Message)
    requires JustClaimed(c, index, session) && i < index
    requires m in Entry(c.messages, c.messages[i], c.messages[index].sequence.value, c.messages[index].id)
    ensures Terminal(m) && m != c.messages[index]
  {
    var ms, q := c.messages, c.messages[index].sequence.value;
    var a: nat :| TurnAt(c, index, a, session);
    assert MessageShape(ms[i]);
    RepliesAreTheAnswers(ms, ms[i], |ms|, m);
    assert Included(ms[i], q) && Earlier(ms[i].sequence, ms[index].sequence);
    assert i !in QueuedAt(c);
    if m != ms[i] {
      var j :| 0 <= j < |ms| && ms[j] == m && Answers(m, ms[i]);
      assert MessageShape(ms[j]);
      assert j != a;
    }
  }

  lemma MembersOfHistory(ms: seq<Message>, q: nat, index: nat, j: nat)
    requires UniqueIds(ms) && index < |ms| && j < |ms|
    ensures ms[j].role.User? ==> (ms[j] in Entries(ms, q, ms[index].id, |ms|) <==> Included(ms[j], q))
    ensures !ms[j].role.User?
            ==> (ms[j] in Entries(ms, q, ms[index].id, |ms|)
                 <==> exists i :: 0 <= i < |ms| && i != index && Included(ms[i], q) && Answers(ms[j], ms[i]))
  {
    EntriesAreExact(ms, q, ms[index].id, |ms|, ms[j]);
    forall i | 0 <= i < |ms|
      ensures ms[j] in Entry(ms, ms[i], q, ms[index].id)
              <==> Included(ms[i], q) && (i == j || (i != index && Answers(ms[j], ms[i])))
    {
      RepliesAreTheAnswers(ms, ms[i], |ms|, ms[j]);
    }
  }

  /**
   The snapshot dispatched for a claim succeeds; what the prompt takes for the latest request (its last
   user entry) is the claimed message, and everything before it is settled.
   */
  lemma DispatchedHistory(s: Store, host: nat, id: Id, index: nat, session: Id, reply: Id, now: int)
    requires Reachable(s) && CanClaim(s, id, index, session, reply)
    ensures var c := AfterClaim(s, host, id, index, session, reply, now).conversations[id];
            var r := Snapshot(c, c.messages[index].id);
            && r.Ok? && r.value.messages != []
            && r.value.messages[|r.value.messages| - 1] == Strip(c.messages[index]) && c.messages[index].role.User?
            && forall k :: 0 <= k < |r.value.messages| - 1 ==> Terminal(r.value.messages[k])
  {
    hide Inv, JustClaimed, Snapshot, Claimed, LeaseFree, Idle, Reachable;
    EveryReachableStoreIsSound(s);
    ClaimsAreJustClaimed(s, host, id, index, session, reply, now);
    SnapshotOfJustClaimed(AfterClaim(s, host, id, index, session, reply, now).conversations[id], index, session);
  }

  /** What the agent is shown of a message: all of it but what concerns the queue only. */
  predicate ShownTo(m: Message, x: Message) {
    && x.id == m.id && x.request == m.request && x.sequence == m.sequence && x.role == m.role && x.body == m.body && x.status == m.status
    && x.created == m.created && x.session == m.session && x.error == m.error && x.progress == m.progress && x.diagnostic == m.diagnostic
    && x.submitted.None? && x.lastMutation.None? && x.position.None?
  }

  ghost predicate IsShown(m: Message, shown: seq<Message>) {
    exists k :: 0 <= k < |shown| && ShownTo(m, shown[k])
  }

  ghost predicate IsOfTheConversation(ms: seq<Message>, x: Message) {
    exists i :: 0 <= i < |ms| && ShownTo(ms[i], x)
  }

  /** A request that was sent no later than the claimed one and was not cancelled. */
  predicate BelongsTo(m: Message, latest: Message) {
    m.role.User? && m.status != Cancelled && (m.sequence.None? || (latest.sequence.Some? && m.sequence.value <= latest.sequence.value))
  }

  /** By the request that both carry, or, for a reply without one, by the session that both ran in. */
  predicate RepliesTo(m: Message, user: Message) {
    !m.role.User? && (if m.request.Some? then user.request == m.request else m.session.Some? && user.session == m.session)
  }

  /**
   The snapshot of a claimed turn shows every request up to the claimed one that was not cancelled, and every reply to
   one of them but the claimed one, and no other message of the conversation.
   */
  lemma SnapshotShowsExactly(c: Conversation, index: nat, session: Id)
    requires JustClaimed(c, index, session)
    ensures index < |c.messages| && Snapshot(c, c.messages[index].id).Ok?
    ensures var ms, shown := c.messages, Snapshot(c, c.messages[index].id).value.messages;
            && (forall i :: 0 <= i < |ms| && ms[i].role.User? ==> (IsShown(ms[i], shown) <==> BelongsTo(ms[i], ms[index])))
            && (forall j :: 0 <= j < |ms| && !ms[j].role.User? ==>
                  (IsShown(ms[j], shown) <==> exists i :: 0 <= i < |ms| && i != index && BelongsTo(ms[i], ms[index]) && RepliesTo(ms[j], ms[i])))
            && (forall x :: x in shown ==> IsOfTheConversation(ms, x))
  {
    hide Entries, JustClaimed, IsShown, ShownTo, BelongsTo, RepliesTo, Snapshot;
    SnapshotIsTheEntries(c, index, session);
    var ms, q, id := c.messages, c.messages[index].sequence.value, c.messages[index].id;
    var h := Entries(ms, q, id, |ms|);
    EntriesExactly(c, index, session);
    forall i | 0 <= i < |ms| ensures IsShown(ms[i], StripAll(h)) <==> ms[i] in h {
      ShownIfThere(c, index, session, i);
    }
    OnlyMessagesAreShown(ms, q, id);
  }

  lemma SnapshotIsTheEntries(c: Conversation, index: nat, session: Id)
    requires JustClaimed(c, index, session)
    ensures index < |c.messages| && c.messages[index].sequence.Some?
    ensures var r := Snapshot(c, c.messages[index].id);
            r.Ok? && r.value.messages == StripAll(Entries(c.messages, c.messages[index].sequence.value, c.messages[index].id, |c.messages|))
  {
    assert UniqueIds(c.messages) && index < |c.messages|;
    hide Sound, Entries;
    FindsItself(c.messages, index);
  }

  lemma OnlyMessagesAreShown(ms: seq<Message>, q: nat, id: Id)
    ensures var shown := StripAll(Entries(ms, q, id, |ms|));
            forall x :: x in shown ==> IsOfTheConversation(ms, x)
  {
    hide Entries;
    var h := Entries(ms, q, id, |ms|);
    forall x | x in StripAll(h) ensures IsOfTheConversation(ms, x) {
      var k :| 0 <= k < |h| && StripAll(h)[k] == x;
      EntriesAreMessages(ms, q, id, |ms|, h[k]);
      var i :| 0 <= i < |ms| && ms[i] == h[k];
      assert ShownTo(ms[i], x);
    }
  }

  lemma EntriesExactly(c: Conversation, index: nat, session: Id)
    requires JustClaimed(c, index, session)
    ensures index < |c.messages| && c.messages[index].sequence.Some?
    ensures var ms, h := c.messages, Entries(c.messages, c.messages[index].sequence.value, c.messages[index].id, |c.messages|);
            && (forall i :: 0 <= i < |ms| && ms[i].role.User? ==> (ms[i] in h <==> BelongsTo(ms[i], ms[index])))
            && (forall j :: 0 <= j < |ms| && !ms[j].role.User? ==>
                  (ms[j] in h <==> exists i :: 0 <= i < |ms| && i != index && BelongsTo(ms[i], ms[index]) && RepliesTo(ms[j], ms[i])))
  {
    HistoryIsClosed(c, index, session);
    assert index < |c.messages| && c.messages[index].sequence.Some?;
    hide Entries, JustClaimed, BelongsTo, Included, RepliesTo, Answers;
    var ms := c.messages;
    var q, h := ms[index].sequence.value, Entries(ms, ms[index].sequence.value, ms[index].id, |ms|);
    forall i | 0 <= i < |ms| ensures BelongsTo(ms[i], ms[index]) <==> Included(ms[i], q) {
      SameMeaning(ms[i], ms[i], ms[index]);
    }
    forall i | 0 <= i < |ms| && ms[i].role.User? ensures ms[i] in h <==> BelongsTo(ms[i], ms[index]) {
    }
    forall j | 0 <= j < |ms| && !ms[j].role.User?
      ensures ms[j] in h <==> exists i :: 0 <= i < |ms| && i != index && BelongsTo(ms[i], ms[index]) && RepliesTo(ms[j], ms[i])
    {
      forall i | 0 <= i < |ms| ensures RepliesTo(ms[j], ms[i]) <==> Answers(ms[j], ms[i]) {
        SameMeaning(ms[i], ms[j], ms[index]);
      }
    }
  }

  lemma SameMeaning(user: Message, m: Message, latest: Message)
    requires latest.sequence.Some?
    ensures BelongsTo(user, latest) <==> Included(user, latest.sequence.value)
    ensures RepliesTo(m, user) <==> Answers(m, user)
  {
  }

  lemma {:induction false} EntriesAreMessages(ms: seq<Message>, sequence: nat, id: Id, k: nat, m: Message)
    requires k <= |ms| && m in Entries(ms, sequence, id, k)
    ensures exists i :: 0 <= i < |ms| && ms[i] == m
  {
    EntriesAreExact(ms, sequence, id, k, m);
    var i :| 0 <= i < k && m in Entry(ms, ms[i], sequence, id);
    RepliesAreTheAnswers(ms, ms[i], |ms|, m);
  }

  lemma ShownIfThere(c: Conversation, index: nat, session: Id, i: nat)
    requires JustClaimed(c, index, session) && i < |c.messages|
    ensures index < |c.messages| && c.messages[index].sequence.Some?
    ensures var h := Entries(c.messages, c.messages[index].sequence.value, c.messages[index].id, |c.messages|);
            IsShown(c.messages[i], StripAll(h)) <==> c.messages[i] in h
  {
    assert UniqueIds(c.messages) && index < |c.messages|;
    hide Sound, Entries;
    var ms, q, id := c.messages, c.messages[index].sequence.value, c.messages[index].id;
    var h := Entries(ms, q, id, |ms|);
    forall m | m in h ensures exists j :: 0 <= j < |ms| && ms[j] == m {
      EntriesAreMessages(ms, q, id, |ms|, m);
    }
    ShownIfAmong(ms, h, i);
  }

  lemma ShownIfAmong(ms: seq<Message>, h: seq<Message>, i: nat)
    requires UniqueIds(ms) && i < |ms| && forall m :: m in h ==> exists j :: 0 <= j < |ms| && ms[j] == m
    ensures IsShown(ms[i], StripAll(h)) <==> ms[i] in h
  {
    if ms[i] in h {
      var k :| 0 <= k < |h| && h[k] == ms[i];
      assert ShownTo(ms[i], StripAll(h)[k]);
    }
    if IsShown(ms[i], StripAll(h)) {
      var k :| 0 <= k < |h| && ShownTo(ms[i], StripAll(h)[k]);
      assert h[k] in h;
      var j :| 0 <= j < |ms| && ms[j] == h[k];
      assert ms[j].id == ms[i].id;
    }
  }

  lemma SnapshotOfJustClaimed(c: Conversation, index: nat, session: Id)
    requires JustClaimed(c, index, session)
    ensures index < |c.messages| && c.messages[index].role.User?
    ensures var r := Snapshot(c, c.messages[index].id);
            && r.Ok? && r.value.messages != []
            && r.value.messages[|r.value.messages| - 1] == Strip(c.messages[index])
            && forall k :: 0 <= k < |r.value.messages| - 1 ==> Terminal(r.value.messages[k])
  {
    hide Entries, Entry, Sound;
    SettledBeforeTheClaim(c, index, session);
    FindsItself(c.messages, index);
    var h := Entries(c.messages, c.messages[index].sequence.value, c.messages[index].id, |c.messages|);
    assert Snapshot(c, c.messages[index].id).value.messages == StripAll(h);
    assert forall k :: 0 <= k < |h| ==> StripAll(h)[k] == Strip(h[k]);
  }

  // ---------------------------------------------------------------- ended turns stay as they are

  predicate Ended(s: Status) {
    s.Completed? || s.Failed? || s.Interrupted?
  }

  /** The message at i and all its answers are final. */
  ghost predicate TurnIsSettled(c: Conversation, i: nat) {
    && i < |c.messages| && c.messages[i].role.User? && Ended(c.messages[i].status)
    && forall k :: 0 <= k < |c.messages| && Answers(c.messages[k], c.messages[i]) ==> Ended(c.messages[k].status)
  }

  /** The later messages show the same turn: the answers there were are unchanged and no other message became one. */
  ghost predicate SameAnswers(ms: seq<Message>, ms': seq<Message>, user: Message) {
    && |ms| <= |ms'|
    && (forall k :: 0 <= k < |ms| ==> (Answers(ms'[k], user) <==> Answers(ms[k], user)))
    && (forall k :: 0 <= k < |ms| && Answers(ms[k], user) ==> ms'[k] == ms[k])
    && (forall k :: |ms| <= k < |ms'| ==> !Answers(ms'[k], user))
  }

  lemma {:induction false} SameReplies(ms: seq<Message>, ms': seq<Message>, user: Message, k: nat)
    requires SameAnswers(ms, ms', user) && k <= |ms'|
    ensures Replies(ms', user, k) == Replies(ms, user, if k <= |ms| then k else |ms|)
  {
    if k > 0 { SameReplies(ms, ms', user, k - 1); }
  }

  ghost predicate TurnStays(c: Conversation, c': Conversation, i: nat) {
    && TurnIsSettled(c, i) && TurnIsSettled(c', i) && c'.messages[i] == c.messages[i]
    && SameAnswers(c.messages, c'.messages, c.messages[i])
  }

  lemma SettlesKeepsTurn(c: Conversation, c': Conversation, i: nat)
    requires Settles(c, c') && TurnIsSettled(c, i)
    ensures TurnStays(c, c', i)
  {
    assert forall k :: 0 <= k < |c.messages| ==> Follows(c.messages[k], c'.messages[k]);
  }

  lemma EnqueueKeepsTurn(c: Conversation, m: Message, i: nat)
    requires TurnIsSettled(c, i) && m.role.User?
    ensures TurnStays(c, Enqueued(c, m), i)
  {
    var c' := Enqueued(c, m);
    assert forall k :: 0 <= k < |c.messages| ==> c'.messages[k] == c.messages[k];
  }

  /** The new reply answers the claimed message, whose request is another one. */
  lemma ClaimKeepsTurn(c: Conversation, u: nat, session: Id, reply: Id, now: int, i: nat)
    requires Sound(c) && TurnIsSettled(c, i) && u < |c.messages| && Waiting(c.messages[u])
    ensures TurnStays(c, Claimed(c, u, session, reply, now), i)
  {
    QueuedIsUser(c, u);
    ClaimedMessages(c, u, session, reply, now);
    var c' := Claimed(c, u, session, reply, now);
    assert c.messages[u].request != c.messages[i].request;
    assert c'.messages[u].role.User? && i != u;
    hide Claimed, Sound;
  }

  lemma StoredIsSound(s: Store, id: Id)
    requires Inv(s) && id in s.conversations
    ensures Sound(s.conversations[id])
  {
    assert ConversationsSound(s.conversations);
  }

  lemma ReportsSettle(s: Store, session: Id, update: Option<string>, output: Option<Output>, interrupted: bool, failure: Option<string>)
    requires Inv(s) && CanReport(s, session)
    ensures Homed(s.conversations, s.homes, session)
    ensures var c, reply := s.conversations[s.homes[session]], s.workers[session].reply;
            && Settles(c, Progressed(c, reply, session, update))
            && Settles(c, Finished(c, reply, session, output, Outcome(interrupted, failure), failure))
  {
    hide ConversationsSound, TicketsUnique, SessionsHomed, IdsIssued, OneTurnPerWorkspace, ChildrenAccounted, LeasesExclusive,
         StartsInOrder, QueuesBounded, Sound;
    var c, reply := s.conversations[s.homes[session]], s.workers[session].reply;
    StoredIsSound(s, s.homes[session]);
    assert RunsTurn(c, session, reply);
    var u: nat, a: nat :| TurnAt(c, u, a, session) && c.messages[a].id == reply;
    ProgressedIsSound(c, u, a, session, update);
    FinishedIsSound(c, u, a, session, output, interrupted, failure);
  }

  /** What the step makes of the one conversation that it edits, if it edits one. */
  ghost function Edited(s: Store, step: Step): Option<Id>
    requires Enabled(s, step)
  {
    match step
    case Create(c) => Some(c.id)
    case Enqueue(id, _, _, _, _) => Some(id)
    case Change(id, _, _, _, _) => Some(id)
    case Recover(id) => Some(id)
    case Claim(_, id, _, _, _, _) => Some(id)
    case Refuse(id, _, _) => Some(id)
    case Progress(session, _) => Some(s.homes[session])
    case Finish(session, _, _, _) => Some(s.homes[session])
    case _ => None
  }

  lemma OthersAreUntouched(s: Store, step: Step, id: Id)
    requires Enabled(s, step) && id in s.conversations && Edited(s, step) != Some(id)
    ensures id in Apply(s, step).conversations && Apply(s, step).conversations[id] == s.conversations[id]
  {
    hide Sound, Recovered, Eligible, LeaseFree, Mutate, Enqueued, Claimed, NotStarted, Progressed, Finished, NewRequest, SequenceAt;
  }

  lemma ChangeKeepsTurn(s: Store, id: Id, message: Id, request: Id, expected: string, edit: Option<string>, i: nat)
    requires Inv(s) && id in s.conversations && TurnIsSettled(s.conversations[id], i)
    ensures var s' := AfterChange(s, id, Mutate(s.conversations[id], message, request, expected, edit));
            id in s'.conversations && TurnStays(s.conversations[id], s'.conversations[id], i)
  {
    hide Inv, Sound, TurnStays, TurnIsSettled, Mutate;
    var c := s.conversations[id];
    StoredIsSound(s, id);
    TurnStaysItself(c, i);
    if Mutate(c, message, request, expected, edit).Applied? {
      MutatedIsSound(c, message, request, expected, edit);
      SettlesKeepsTurn(c, Mutate(c, message, request, expected, edit).conversation, i);
    }
  }

  lemma TurnStaysItself(c: Conversation, i: nat)
    requires TurnIsSettled(c, i)
    ensures TurnStays(c, c, i)
  {
  }

  lemma RefuseKeepsTurn(s: Store, id: Id, index: nat, error: string, i: nat)
    requires Inv(s) && Eligible(s.conversations, id, index) && TurnIsSettled(s.conversations[id], i)
    ensures TurnStays(s.conversations[id], AfterRefuse(s, id, index, error).conversations[id], i)
  {
    hide Inv, Sound, TurnStays, TurnIsSettled, NotStarted;
    StoredIsSound(s, id);
    NotStartedIsSound(s.conversations[id], index, error);
    SettlesKeepsTurn(s.conversations[id], NotStarted(s.conversations[id], index, error), i);
  }

  lemma ClaimStepKeepsTurn(s: Store, host: nat, id: Id, index: nat, session: Id, reply: Id, now: int, i: nat)
    requires Inv(s) && CanClaim(s, id, index, session, reply) && TurnIsSettled(s.conversations[id], i)
    ensures TurnStays(s.conversations[id], AfterClaim(s, host, id, index, session, reply, now).conversations[id], i)
  {
    hide Inv, Sound, TurnStays, TurnIsSettled, Claimed, CanClaim;
    ClaimIsEligible(s, id, index, session, reply);
    ClaimKeepsTurn(s.conversations[id], index, session, reply, now, i);
  }

  lemma EnqueueStepKeepsTurn(s: Store, id: Id, message: Id, request: Id, body: string, now: int, i: nat)
    requires id in s.conversations && TurnIsSettled(s.conversations[id], i)
    ensures TurnStays(s.conversations[id], AfterEnqueue(s, id, message, request, body, now).conversations[id], i)
  {
    hide TurnStays, TurnIsSettled, Enqueued;
    EnqueueKeepsTurn(s.conversations[id], NewRequest(message, request, body, s.counter, now), i);
  }

  lemma RecoverKeepsTurn(s: Store, id: Id, i: nat)
    requires Inv(s) && id in s.conversations && TurnIsSettled(s.conversations[id], i)
    ensures TurnStays(s.conversations[id], Recovered(s.conversations[id]), i)
  {
    hide Inv, Sound, TurnStays, TurnIsSettled, Recovered;
    StoredIsSound(s, id);
    RecoveredIsSound(s.conversations[id]);
    SettlesKeepsTurn(s.conversations[id], Recovered(s.conversations[id]), i);
  }

  lemma ReportKeepsTurn(s: Store, session: Id, update: Option<string>, output: Option<Output>, interrupted: bool,
                        failure: Option<string>, i: nat)
    requires Inv(s) && CanReport(s, session) && TurnIsSettled(s.conversations[s.homes[session]], i)
    ensures var id := s.homes[session];
            && TurnStays(s.conversations[id], AfterProgress(s, session, update).conversations[id], i)
            && TurnStays(s.conversations[id], AfterFinish(s, session, output, interrupted, failure).conversations[id], i)
  {
    hide Inv, TurnStays, TurnIsSettled, Progressed, Finished, Settles;
    var c, reply := s.conversations[s.homes[session]], s.workers[session].reply;
    ReportsSettle(s, session, update, output, interrupted, failure);
    SettlesKeepsTurn(c, Progressed(c, reply, session, update), i);
    SettlesKeepsTurn(c, Finished(c, reply, session, output, Outcome(interrupted, failure), failure), i);
  }

  lemma StepKeepsTurn(s: Store, step: Step, id: Id, i: nat)
    requires Inv(s) && Enabled(s, step) && id in s.conversations && TurnIsSettled(s.conversations[id], i)
    ensures id in Apply(s, step).conversations && TurnStays(s.conversations[id], Apply(s, step).conversations[id], i)
  {
    hide Inv, TurnStays, TurnIsSettled, Mutate, Recovered, Eligible, LeaseFree, AfterEnqueue, AfterClaim, AfterChange, AfterRefuse, AfterProgress, AfterFinish;
    if Edited(s, step) == Some(id) {
      match step
      case Enqueue(_, message, request, body, now) =>
        EnqueueStepKeepsTurn(s, id, message, request, body, now, i);
        EditIsInPlace(s, step, id);
      case Change(_, message, request, expected, edit) => ChangeKeepsTurn(s, id, message, request, expected, edit, i);
      case Recover(_) => RecoverKeepsTurn(s, id, i);
      case Claim(host, _, index, session, reply, now) =>
        ClaimStepKeepsTurn(s, host, id, index, session, reply, now, i);
        EditIsInPlace(s, step, id);
      case Refuse(_, index, error) =>
        RefuseKeepsTurn(s, id, index, error, i);
        EditIsInPlace(s, step, id);
      case Progress(session, update) =>
        ReportKeepsTurn(s, session, update, None, false, None, i);
        EditIsInPlace(s, step, id);
      case Finish(session, output, interrupted, failure) =>
        ReportKeepsTurn(s, session, None, output, interrupted, failure, i);
        EditIsInPlace(s, step, id);
      case _ =>
    } else {
      OthersAreUntouched(s, step, id);
      TurnStaysItself(s.conversations[id], i);
    }
  }

  lemma EditIsInPlace(s: Store, step: Step, id: Id)
    requires Enabled(s, step) && id in s.conversations
    ensures id in Apply(s, step).conversations
  {
    hide Sound, Recovered, Eligible, LeaseFree, Mutate, Enqueued, Claimed, NotStarted, Progressed, Finished, NewRequest, SequenceAt;
  }

  lemma TurnStaysTransitive(a: Conversation, b: Conversation, c: Conversation, i: nat)
    requires TurnStays(a, b, i) && TurnStays(b, c, i)
    ensures TurnStays(a, c, i)
  {
  }

  /** Once a turn is settled, every later version of its conversation shows it with the same answers, unchanged. */
  lemma {:induction false} SettledTurnsNeverChange(states: seq<Store>, steps: seq<Step>, j: nat, k: nat, id: Id, i: nat)
    requires Run(states, steps) && Inv(states[0]) && j <= k < |states|
    requires id in states[j].conversations && TurnIsSettled(states[j].conversations[id], i)
    ensures id in states[k].conversations && TurnStays(states[j].conversations[id], states[k].conversations[id], i)
    decreases k
  {
    hide Inv, Enabled, Apply, TurnStays, TurnIsSettled;
    if j < k {
      SettledTurnsNeverChange(states, steps, j, k - 1, id, i);
      InvAlongRun(states, steps, k - 1);
      RunStep(states, steps, k - 1);
      var b := states[k - 1].conversations[id];
      StayingIsSettled(states[j].conversations[id], b, i);
      StepKeepsTurn(states[k - 1], steps[k - 1], id, i);
      TurnStaysTransitive(states[j].conversations[id], b, states[k].conversations[id], i);
    } else {
      TurnStaysItself(states[j].conversations[id], i);
    }
  }

  lemma StayingIsSettled(c: Conversation, c': Conversation, i: nat)
    requires TurnStays(c, c', i)
    ensures TurnIsSettled(c', i)
  {
  }
}
