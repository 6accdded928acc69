/**
 The earlier turns of sibling conversations that a turn is shown: a streaming scan that keeps the
 newest turns, then a selection within a byte budget.
 */
module PriorFeedback {
  import opened Options
  import opened Conversations
  import opened QueueProtocol
  import opened ConversationEdits
  import opened QueueRuns
  import opened TurnHistory

  const MAX_PRIOR_FEEDBACK_TURNS := 32
  const MAX_PRIOR_FEEDBACK_BYTES := 1024 * 1024
  const MAX_SCANNED := 4096
  const FRAME := |"{'turns':[],'omittedTurnCount':}"|

  /** Turns are ordered by sequence (none comes first), then by creation time, conversation and message. */
  datatype TurnKey = TurnKey(sequence: Option<nat>, created: int, conversation: Id, message: Id)

  predicate Older(a: TurnKey, b: TurnKey) {
    if a.sequence != b.sequence then a.sequence.None? || (b.sequence.Some? && a.sequence.value < b.sequence.value)
    else if a.created != b.created then a.created < b.created
    else if a.conversation != b.conversation then a.conversation < b.conversation
    else a.message < b.message
  }

  function KeyFor(conversation: Id, user: Message): TurnKey {
    TurnKey(user.sequence, user.created, conversation, user.id)
  }

  lemma OlderIsAnOrder()
    ensures forall a, b :: Older(a, b) ==> !Older(b, a)
    ensures forall a, b :: a == b || Older(a, b) || Older(b, a)
    ensures forall a, b, c :: Older(a, b) && Older(b, c) ==> Older(a, c)
  {
    forall a: TurnKey, b: TurnKey ensures a == b || Older(a, b) || Older(b, a) {
      if a.sequence == b.sequence && a.created == b.created && a.conversation == b.conversation && a.message == b.message {
        assert a == b;
      }
    }
  }

  // ---------------------------------------------------------------- which turns are eligible

  /** The turn is over: its message and all its replies are final, and it has a reply or an error to show. */
  ghost predicate TurnIsOver(c: Conversation, user: Message) {
    && user.role.User? && Ended(user.status)
    && (user.session.Some? ==> user.session != c.active)
    && (user.error.Some? || exists k :: 0 <= k < |c.messages| && Answers(c.messages[k], user))
    && (forall k :: 0 <= k < |c.messages| && Answers(c.messages[k], user) ==> Ended(c.messages[k].status))
  }

  predicate CameBefore(user: Message, latest: Message) {
    match (user.sequence, latest.sequence)
    case (Some(a), Some(b)) => a < b
    case (None, _) => user.created < latest.created
    case (Some(_), None) => false
  }

  predicate Sibling(c: Conversation, current: Conversation) {
    c.id != current.id && c.workspace == current.workspace && c.repository == current.repository && c.provider == current.provider
  }

  ghost predicate RepeatedIn(current: Conversation, user: Message) {
    user.request.Some? && exists k :: 0 <= k < |current.messages| && current.messages[k].request == user.request
  }

  ghost predicate EligibleTurn(c: Conversation, i: nat, current: Conversation, latest: Message) {
    && i < |c.messages| && Sibling(c, current) && CameBefore(c.messages[i], latest)
    && !RepeatedIn(current, c.messages[i]) && TurnIsOver(c, c.messages[i])
  }

  ghost function EligibleTurns(cs: Saved, current: Conversation, latest: Message): set<TurnKey> {
    set id, i: nat | id in cs && i < |cs[id].messages| && EligibleTurn(cs[id], i, current, latest) :: KeyFor(id, cs[id].messages[i])
  }

  // ---------------------------------------------------------------- the newest of them

  /** kept holds the n greatest keys of all, or all of them if there are fewer. */
  ghost predicate Newest(all: set<TurnKey>, kept: set<TurnKey>, n: nat) {
    && kept <= all
    && |kept| == (if |all| < n then |all| else n)
    && forall a, b :: a in all - kept && b in kept ==> Older(a, b)
  }

  lemma NewestIsUnique(all: set<TurnKey>, a: set<TurnKey>, b: set<TurnKey>, n: nat)
    requires Newest(all, a, n) && Newest(all, b, n)
    ensures a == b
  {
    forall x, y | x in a && y in b ensures x in b || y in a {
      NoExchange(all, a, b, n, x, y);
    }
    if x :| x in a && x !in b {
      SmallerSet(b, a, x);
    }
    if x :| x in b && x !in a {
      SmallerSet(a, b, x);
    }
  }

  lemma NoExchange(all: set<TurnKey>, a: set<TurnKey>, b: set<TurnKey>, n: nat, x: TurnKey, y: TurnKey)
    requires Newest(all, a, n) && Newest(all, b, n) && x in a && y in b
    ensures x in b || y in a
  {
    OlderIsAnOrder();
    assert x !in b ==> Older(x, y);
    assert y !in a ==> Older(y, x);
  }

  lemma {:induction false} SmallerSet(a: set<TurnKey>, b: set<TurnKey>, x: TurnKey)
    requires a <= b && x in b && x !in a
    ensures |a| < |b|
  {
    if a != {} {
      var y :| y in a;
      SmallerSet(a - {y}, b - {y}, x);
    }
  }

  lemma {:induction false} OldestExists(keys: set<TurnKey>) returns (k: TurnKey)
    requires keys != {}
    ensures k in keys && forall x :: x in keys && x != k ==> Older(k, x)
  {
    hide Older;
    OlderIsAnOrder();
    k :| k in keys;
    if keys != {k} {
      var m := OldestExists(keys - {k});
      if Older(m, k) { k := m; }
    }
  }

  lemma {:induction false} LatestExists(keys: set<TurnKey>) returns (k: TurnKey)
    requires keys != {}
    ensures k in keys && forall x :: x in keys && x != k ==> Older(x, k)
  {
    hide Older;
    OlderIsAnOrder();
    k :| k in keys;
    if keys != {k} {
      var m := LatestExists(keys - {k});
      if Older(k, m) { k := m; }
    }
  }

  predicate IsOldest(keys: set<TurnKey>, k: TurnKey) {
    k in keys && forall x :: x in keys && x != k ==> Older(k, x)
  }

  predicate IsLatest(keys: set<TurnKey>, k: TurnKey) {
    k in keys && forall x :: x in keys && x != k ==> Older(x, k)
  }

  /** Removes the smallest key. */
  method PopFirst(keys: set<TurnKey>) returns (rest: set<TurnKey>, ghost first: TurnKey)
    requires keys != {}
    ensures IsOldest(keys, first) && rest == keys - {first}
  {
    ghost var k := OldestExists(keys);
    assert IsOldest(keys, k);
    var m :| IsOldest(keys, m);
    first := m;
    rest := keys - {m};
  }

  /** One more key in the stream: insert it, and drop the smallest when there are too many. */
  method Keep(ghost all: set<TurnKey>, kept: set<TurnKey>, k: TurnKey) returns (r: set<TurnKey>)
    requires Newest(all, kept, MAX_PRIOR_FEEDBACK_TURNS) && k !in all
    ensures Newest(all + {k}, r, MAX_PRIOR_FEEDBACK_TURNS)
  {
    r := kept + {k};
    if |r| > MAX_PRIOR_FEEDBACK_TURNS {
      ghost var first;
      r, first := PopFirst(r);
      DroppedTheOldest(all, kept, k, first);
    } else {
      KeptEverything(all, kept);
    }
  }

  lemma DroppedTheOldest(all: set<TurnKey>, kept: set<TurnKey>, k: TurnKey, first: TurnKey)
    requires Newest(all, kept, MAX_PRIOR_FEEDBACK_TURNS) && k !in all && IsOldest(kept + {k}, first)
    requires |kept + {k}| > MAX_PRIOR_FEEDBACK_TURNS
    ensures Newest(all + {k}, kept + {k} - {first}, MAX_PRIOR_FEEDBACK_TURNS)
  {
    hide Older;
    OlderIsAnOrder();
    var r := kept + {k} - {first};
    forall a, b | a in all + {k} - r && b in r ensures Older(a, b) {
      if a != first { assert a in all - kept; }
      if b in kept && a in all - kept {
      } else if a in all - kept {
        assert Older(first, b) && first in kept;
      }
    }
    MoreElements(all, kept);
  }

  lemma {:induction false} MoreElements(all: set<TurnKey>, kept: set<TurnKey>)
    requires kept <= all
    ensures |kept| <= |all|
  {
    if kept != all {
      var x :| x in all && x !in kept;
      SmallerSet(kept, all, x);
    }
  }

  lemma KeptEverything(all: set<TurnKey>, kept: set<TurnKey>)
    requires Newest(all, kept, MAX_PRIOR_FEEDBACK_TURNS) && |kept| < MAX_PRIOR_FEEDBACK_TURNS
    ensures kept == all
  {
    if x :| x in all && x !in kept {
      SmallerSet(kept, all, x);
    }
  }

  ghost predicate IdsFit(cs: Saved) {
    forall id :: id in cs ==> cs[id].id == id && UniqueIds(cs[id].messages)
  }

  method IsOver(c: Conversation, user: Message) returns (r: bool)
    ensures r <==> TurnIsOver(c, user)
  {
    if !user.role.User? || !Ended(user.status) || (user.session.Some? && user.session == c.active) { return false; }
    var replied, ended, k := false, true, 0;
    while k < |c.messages|
      invariant k <= |c.messages|
      invariant replied <==> exists j :: 0 <= j < k && Answers(c.messages[j], user)
      invariant ended <==> forall j :: 0 <= j < k && Answers(c.messages[j], user) ==> Ended(c.messages[j].status)
    {
      if Answers(c.messages[k], user) {
        replied := true;
        ended := ended && Ended(c.messages[k].status);
      }
      k := k + 1;
    }
    r := (replied || user.error.Some?) && ended;
  }

  ghost function EligibleIn(c: Conversation, k: nat, current: Conversation, latest: Message): set<TurnKey>
    requires k <= |c.messages|
  {
    set i: nat | i < k && EligibleTurn(c, i, current, latest) :: KeyFor(c.id, c.messages[i])
  }

  method ScanConversation(c: Conversation, current: Conversation, latest: Message, ghost all: set<TurnKey>, kept: set<TurnKey>, count: nat)
    returns (r: set<TurnKey>, n: nat)
    requires Sibling(c, current) && UniqueIds(c.messages) && Newest(all, kept, MAX_PRIOR_FEEDBACK_TURNS) && count == |all|
    requires forall k :: k in all ==> k.conversation != c.id
    ensures Newest(all + EligibleIn(c, |c.messages|, current, latest), r, MAX_PRIOR_FEEDBACK_TURNS)
    ensures n == |all + EligibleIn(c, |c.messages|, current, latest)| && n <= count + |c.messages|
  {
    hide Newest, EligibleTurn, EligibleIn, Sibling, UniqueIds;
    r, n := kept, count;
    var i := 0;
    assert all + EligibleIn(c, 0, current, latest) == all by { NoTurnsYet(c, current, latest); }
    while i < |c.messages|
      invariant i <= |c.messages| && n == |all + EligibleIn(c, i, current, latest)| && n <= count + i
      invariant Newest(all + EligibleIn(c, i, current, latest), r, MAX_PRIOR_FEEDBACK_TURNS)
    {
      var eligible := IsEligible(c, i, current, latest);
      OneMoreTurn(c, i, current, latest, all);
      if eligible {
        KeyIsNew(c, i, current, latest);
        n := n + 1;
        r := Keep(all + EligibleIn(c, i, current, latest), r, KeyFor(c.id, c.messages[i]));
      }
      i := i + 1;
    }
  }

  lemma NoTurnsYet(c: Conversation, current: Conversation, latest: Message)
    ensures EligibleIn(c, 0, current, latest) == {}
  {
  }

  method IsEligible(c: Conversation, i: nat, current: Conversation, latest: Message) returns (r: bool)
    requires i < |c.messages| && Sibling(c, current)
    ensures r <==> EligibleTurn(c, i, current, latest)
  {
    hide TurnIsOver, RepeatedIn;
    var over := IsOver(c, c.messages[i]);
    var repeated := IsRepeated(current, c.messages[i]);
    r := CameBefore(c.messages[i], latest) && !repeated && over;
  }

  lemma KeyIsNew(c: Conversation, i: nat, current: Conversation, latest: Message)
    requires UniqueIds(c.messages) && i < |c.messages|
    ensures KeyFor(c.id, c.messages[i]) !in EligibleIn(c, i, current, latest)
    ensures KeyFor(c.id, c.messages[i]).conversation == c.id
  {
    hide EligibleTurn;
  }

  lemma OneMoreTurn(c: Conversation, i: nat, current: Conversation, latest: Message, all: set<TurnKey>)
    requires i < |c.messages|
    ensures all + EligibleIn(c, i + 1, current, latest)
            == all + EligibleIn(c, i, current, latest) + (if EligibleTurn(c, i, current, latest) then {KeyFor(c.id, c.messages[i])} else {})
  {
    hide EligibleTurn;
    assert EligibleIn(c, i + 1, current, latest)
           == EligibleIn(c, i, current, latest) + (if EligibleTurn(c, i, current, latest) then {KeyFor(c.id, c.messages[i])} else {});
  }

  method IsRepeated(current: Conversation, user: Message) returns (r: bool)
    ensures r <==> RepeatedIn(current, user)
  {
    r := false;
    if user.request.None? { return; }
    var k := 0;
    while k < |current.messages|
      invariant k <= |current.messages| && (r <==> exists j :: 0 <= j < k && current.messages[j].request == user.request)
    {
      if current.messages[k].request == user.request { r := true; }
      k := k + 1;
    }
  }

  ghost function EligibleAmong(cs: Saved, ids: set<Id>, current: Conversation, latest: Message): set<TurnKey>
    requires ids <= cs.Keys
  {
    set id, i: nat | id in ids && i < |cs[id].messages| && EligibleTurn(cs[id], i, current, latest) :: KeyFor(id, cs[id].messages[i])
  }

  /** The scan in any order of the files: how many turns are eligible, and the newest of them. */
  method RecentTurns(cs: Saved, current: Conversation, latest: Message) returns (recent: set<TurnKey>, count: nat)
    requires IdsFit(cs) && forall id :: id in cs ==> |cs[id].messages| <= MAX_MESSAGES
    ensures count == |EligibleTurns(cs, current, latest)| <= MAX_MESSAGES * |cs|
    ensures Newest(EligibleTurns(cs, current, latest), recent, MAX_PRIOR_FEEDBACK_TURNS)
  {
    hide Newest, EligibleTurn;
    recent, count := {}, 0;
    var left := cs.Keys;
    assert EligibleAmong(cs, {}, current, latest) == {};
    NothingKept();
    while left != {}
      invariant left <= cs.Keys && count == |EligibleAmong(cs, cs.Keys - left, current, latest)|
      invariant count + MAX_MESSAGES * |left| <= MAX_MESSAGES * |cs|
      invariant Newest(EligibleAmong(cs, cs.Keys - left, current, latest), recent, MAX_PRIOR_FEEDBACK_TURNS)
      decreases |left|
    {
      var id :| id in left;
      ghost var done := cs.Keys - left;
      left := left - {id};
      assert cs.Keys - left == done + {id};
      OneMoreFile(cs, done, id, current, latest);
      if Sibling(cs[id], current) {
        recent, count := ScanConversation(cs[id], current, latest, EligibleAmong(cs, done, current, latest), recent, count);
      } else {
        NoSiblingNoTurns(cs[id], current, latest);
        assert EligibleAmong(cs, done + {id}, current, latest) == EligibleAmong(cs, done, current, latest);
      }
    }
    assert cs.Keys - left == cs.Keys;
    assert EligibleAmong(cs, cs.Keys, current, latest) == EligibleTurns(cs, current, latest);
  }

  lemma NothingKept()
    ensures Newest({}, {}, MAX_PRIOR_FEEDBACK_TURNS)
  {
  }

  lemma OneMoreFile(cs: Saved, ids: set<Id>, id: Id, current: Conversation, latest: Message)
    requires ids <= cs.Keys && id in cs && id !in ids && cs[id].id == id
    ensures EligibleAmong(cs, ids + {id}, current, latest)
            == EligibleAmong(cs, ids, current, latest) + EligibleIn(cs[id], |cs[id].messages|, current, latest)
  {
    hide EligibleTurn;
  }

  lemma NoSiblingNoTurns(c: Conversation, current: Conversation, latest: Message)
    requires !Sibling(c, current)
    ensures EligibleIn(c, |c.messages|, current, latest) == {}
  {
  }

  // ---------------------------------------------------------------- the byte budget

  /** A whole turn: the user message followed by its replies, as the agent is shown them. */
  datatype Turn = Turn(conversation: Id, messages: seq<Message>)

  datatype Feedback = Feedback(turns: seq<Turn>, omitted: nat)

  function WholeTurn(cs: Saved, key: TurnKey): Turn
    requires key.conversation in cs
  {
    WholeTurnIn(cs[key.conversation], key)
  }

  function WholeTurnIn(c: Conversation, key: TurnKey): Turn {
    var ms := c.messages;
    match Find(ms, key.message)
    case None => Turn(key.conversation, [])
    case Some(u) => Turn(key.conversation, StripAll([ms[u]] + Replies(ms, ms[u], |ms|)))
  }

  function Digits(n: nat): nat {
    if n < 10 then 1 else 1 + Digits(n / 10)
  }

  function Total(turns: seq<Turn>, length: Turn -> nat): nat {
    if turns == [] then 0 else length(turns[0]) + Total(turns[1..], length)
  }

  /** The length of the serialized feedback; commas stand between the turns. */
  function Serialized(f: Feedback, length: Turn -> nat): nat {
    FRAME + Digits(f.omitted) + Total(f.turns, length) + (if f.turns == [] then 0 else |f.turns| - 1)
  }

  lemma {:induction false} FewerDigits(m: nat, n: nat)
    requires m <= n
    ensures Digits(m) <= Digits(n)
  {
    if m >= 10 { FewerDigits(m / 10, n / 10); }
  }

  function KeyOfTurn(t: Turn): TurnKey
    requires t.messages != []
  {
    KeyFor(t.conversation, t.messages[0])
  }

  /** The turns are whole turns of the given keys, oldest first. */
  ghost predicate Chronological(cs: Saved, turns: seq<Turn>, from: set<TurnKey>) {
    && (forall i :: 0 <= i < |turns| ==>
          turns[i].messages != [] && KeyOfTurn(turns[i]) in from
          && turns[i].conversation in cs && turns[i] == WholeTurn(cs, KeyOfTurn(turns[i])))
    && (forall i, j :: 0 <= i < j < |turns| ==> Older(KeyOfTurn(turns[i]), KeyOfTurn(turns[j])))
  }

  /** Next to the newer turns from i on, the turn of k did not fit any more. */
  ghost predicate NoRoom(cs: Saved, turns: seq<Turn>, i: nat, k: TurnKey, eligible: nat, length: Turn -> nat)
    requires i <= |turns| && k.conversation in cs && forall j :: 0 <= j < |turns| ==> turns[j].messages != []
  {
    && (forall j :: 0 <= j < i ==> Older(KeyOfTurn(turns[j]), k))
    && (forall j :: i <= j < |turns| ==> Older(k, KeyOfTurn(turns[j])))
    && FRAME + Digits(eligible) + Total(turns[i..], length) + |turns| - i + length(WholeTurn(cs, k)) > MAX_PRIOR_FEEDBACK_BYTES
  }

  /** Of the keys in from, every one is included, unless it did not fit. */
  ghost predicate Greedy(cs: Saved, turns: seq<Turn>, from: set<TurnKey>, eligible: nat, length: Turn -> nat)
    requires forall j :: 0 <= j < |turns| ==> turns[j].messages != []
  {
    forall k :: k in from ==> Accounted(cs, turns, k, eligible, length)
  }

  ghost predicate Accounted(cs: Saved, turns: seq<Turn>, k: TurnKey, eligible: nat, length: Turn -> nat)
    requires forall j :: 0 <= j < |turns| ==> turns[j].messages != []
  {
    && k.conversation in cs
    && (|| (exists j :: 0 <= j < |turns| && KeyOfTurn(turns[j]) == k)
        || (exists i: nat :: i <= |turns| && NoRoom(cs, turns, i, k, eligible, length)))
  }

  ghost predicate KeysAreTurns(cs: Saved, keys: set<TurnKey>) {
    forall k :: k in keys ==>
      k.conversation in cs && exists i :: 0 <= i < |cs[k.conversation].messages| && KeyFor(k.conversation, cs[k.conversation].messages[i]) == k
  }

  lemma WholeTurnHasItsKey(cs: Saved, keys: set<TurnKey>, k: TurnKey)
    requires IdsFit(cs) && KeysAreTurns(cs, keys) && k in keys
    ensures var t := WholeTurn(cs, k); t.messages != [] && t.conversation == k.conversation && KeyOfTurn(t) == k
  {
    var ms := cs[k.conversation].messages;
    var i :| 0 <= i < |ms| && KeyFor(k.conversation, ms[i]) == k;
    assert Find(ms, k.message) == Some(i);
  }

  /** Everything the second pass keeps true while it works from the newest key down. */
  ghost predicate Selecting(cs: Saved, recent: set<TurnKey>, left: set<TurnKey>, turns: seq<Turn>, eligible: nat, length: Turn -> nat) {
    && left <= recent && (forall a, b :: a in left && b in recent - left ==> Older(a, b))
    && Chronological(cs, turns, recent - left) && Greedy(cs, turns, recent - left, eligible, length)
  }

  lemma SelectTaken(cs: Saved, recent: set<TurnKey>, left: set<TurnKey>, turns: seq<Turn>, eligible: nat, length: Turn -> nat, k: TurnKey)
    requires IdsFit(cs) && KeysAreTurns(cs, recent) && Selecting(cs, recent, left, turns, eligible, length) && IsLatest(left, k)
    ensures Selecting(cs, recent, left - {k}, [WholeTurn(cs, k)] + turns, eligible, length)
  {
    hide WholeTurn, IdsFit, Older, Total, Greedy, Chronological, KeysAreTurns;
    assert k.conversation in cs by { KeyHasAFile(cs, recent, left, k); }
    OlderIsAnOrder();
    assert recent - (left - {k}) == (recent - left) + {k};
    TakenInOrder(cs, recent, left, turns, k);
    TakenGreedily(cs, recent, left, turns, eligible, length, k);
  }

  lemma TakenInOrder(cs: Saved, recent: set<TurnKey>, left: set<TurnKey>, turns: seq<Turn>, k: TurnKey)
    requires IdsFit(cs) && KeysAreTurns(cs, recent) && left <= recent && IsLatest(left, k)
    requires forall a, b :: a in left && b in recent - left ==> Older(a, b)
    requires Chronological(cs, turns, recent - left)
    ensures k.conversation in cs && Chronological(cs, [WholeTurn(cs, k)] + turns, (recent - left) + {k})
  {
    WholeTurnHasItsKey(cs, recent, k);
    hide WholeTurn, IdsFit, Older, KeysAreTurns;
    var turns' := [WholeTurn(cs, k)] + turns;
    assert forall j :: 0 < j < |turns'| ==> turns'[j] == turns[j - 1];
    forall j | 0 < j < |turns'| ensures Older(KeyOfTurn(turns'[0]), KeyOfTurn(turns'[j])) {
      assert KeyOfTurn(turns'[j]) in recent - left;
    }
  }

  lemma TakenGreedily(cs: Saved, recent: set<TurnKey>, left: set<TurnKey>, turns: seq<Turn>, eligible: nat, length: Turn -> nat, k: TurnKey)
    requires IdsFit(cs) && KeysAreTurns(cs, recent) && left <= recent && IsLatest(left, k)
    requires forall a, b :: a in left && b in recent - left ==> Older(a, b)
    requires Chronological(cs, turns, recent - left) && Greedy(cs, turns, recent - left, eligible, length)
    ensures k.conversation in cs && WholeTurn(cs, k).messages != []
    ensures forall j :: 0 <= j < |turns| ==> turns[j].messages != []
    ensures Greedy(cs, [WholeTurn(cs, k)] + turns, (recent - left) + {k}, eligible, length)
  {
    hide WholeTurn, IdsFit, Older, Total, KeysAreTurns, NoRoom, KeyOfTurn;
    KeyHasAFile(cs, recent, left, k);
    WholeTurnHasItsKey(cs, recent, k);
    var t := WholeTurn(cs, k);
    assert forall j :: 0 <= j < |turns| ==> turns[j].messages != [];
    assert forall j :: 0 <= j < |[t] + turns| ==> ([t] + turns)[j].messages != [];
    forall x | x in (recent - left) + {k} ensures Accounted(cs, [t] + turns, x, eligible, length) {
      if x == k {
        assert ([t] + turns)[0] == t;
      } else {
        assert Accounted(cs, turns, x, eligible, length);
        AccountedStays(cs, turns, x, eligible, length, t);
      }
    }
  }

  lemma AccountedStays(cs: Saved, turns: seq<Turn>, x: TurnKey, eligible: nat, length: Turn -> nat, t: Turn)
    requires t.messages != [] && forall j :: 0 <= j < |turns| ==> turns[j].messages != []
    requires Accounted(cs, turns, x, eligible, length) && Older(KeyOfTurn(t), x)
    ensures Accounted(cs, [t] + turns, x, eligible, length)
  {
    hide WholeTurn, Older, Total, NoRoom, KeyOfTurn;
    var turns' := [t] + turns;
    if j :| 0 <= j < |turns| && KeyOfTurn(turns[j]) == x {
      assert KeyOfTurn(turns'[j + 1]) == x;
    } else {
      var i: nat :| i <= |turns| && NoRoom(cs, turns, i, x, eligible, length);
      StillNoRoom(cs, turns, i, x, eligible, length, t);
    }
  }

  lemma StillNoRoom(cs: Saved, turns: seq<Turn>, i: nat, x: TurnKey, eligible: nat, length: Turn -> nat, t: Turn)
    requires i <= |turns| && x.conversation in cs && t.messages != [] && forall j :: 0 <= j < |turns| ==> turns[j].messages != []
    requires NoRoom(cs, turns, i, x, eligible, length) && Older(KeyOfTurn(t), x)
    ensures NoRoom(cs, [t] + turns, i + 1, x, eligible, length)
  {
    hide WholeTurn, Older, Total;
    assert ([t] + turns)[i + 1..] == turns[i..];
  }

  lemma SelectSkipped(cs: Saved, recent: set<TurnKey>, left: set<TurnKey>, turns: seq<Turn>, eligible: nat, length: Turn -> nat, k: TurnKey)
    requires IdsFit(cs) && KeysAreTurns(cs, recent) && Selecting(cs, recent, left, turns, eligible, length) && IsLatest(left, k)
    requires FRAME + Digits(eligible) + Total(turns, length) + |turns| + length(WholeTurn(cs, k)) > MAX_PRIOR_FEEDBACK_BYTES
    ensures Selecting(cs, recent, left - {k}, turns, eligible, length)
  {
    hide WholeTurn, IdsFit, Older, Total;
    assert recent - (left - {k}) == (recent - left) + {k};
    assert turns[0..] == turns;
    assert NoRoom(cs, turns, 0, k, eligible, length);
  }

  lemma SelectingBegins(cs: Saved, recent: set<TurnKey>, eligible: nat, length: Turn -> nat)
    ensures Selecting(cs, recent, recent, [], eligible, length)
  {
    assert recent - recent == {};
  }

  /** From the newest recent turn down, take every turn that still fits. Each conversation is read again for its turn. */
  method SelectTurns(ghost cs: Saved, again: TurnKey -> Conversation, recent: set<TurnKey>, eligible: nat, length: Turn -> nat)
    returns (f: Feedback)
    requires forall k :: k in recent ==> k.conversation in cs && WholeTurnIn(again(k), k) == WholeTurn(cs, k)
    requires IdsFit(cs) && KeysAreTurns(cs, recent) && |recent| <= eligible
    requires FRAME + Digits(eligible) <= MAX_PRIOR_FEEDBACK_BYTES
    ensures |f.turns| + f.omitted == eligible
    ensures Chronological(cs, f.turns, recent) && Greedy(cs, f.turns, recent, eligible, length)
    ensures Serialized(f, length) <= MAX_PRIOR_FEEDBACK_BYTES
  {
    hide IdsFit, KeysAreTurns, WholeTurn, WholeTurnIn, Digits, Selecting, IsLatest;
    var turns, omitted := [], eligible;
    var bytes := FRAME + Digits(omitted);
    var left := recent;
    SelectingBegins(cs, recent, eligible, length);
    while left != {}
      invariant left <= recent && Selecting(cs, recent, left, turns, eligible, length)
      invariant |turns| + omitted == eligible && |turns| <= |recent| - |left|
      invariant bytes == FRAME + Digits(eligible) + Total(turns, length) + (if turns == [] then 0 else |turns| - 1) <= MAX_PRIOR_FEEDBACK_BYTES
      decreases |left|
    {
      var k := NextTurn(left);
      KeyHasAFile(cs, recent, left, k);
      var turn := WholeTurnIn(again(k), k);
      var separator := if turns == [] then 0 else 1;
      if bytes + separator + length(turn) <= MAX_PRIOR_FEEDBACK_BYTES {
        SelectTaken(cs, recent, left, turns, eligible, length, k);
        bytes := bytes + separator + length(turn);
        turns := [turn] + turns;
        omitted := omitted - 1;
      } else {
        SelectSkipped(cs, recent, left, turns, eligible, length, k);
      }
      left := left - {k};
    }
    f := Feedback(turns, omitted);
    FewerDigits(omitted, eligible);
    SelectingEnds(cs, recent, turns, eligible, length);
  }

  method NextTurn(left: set<TurnKey>) returns (k: TurnKey)
    requires left != {}
    ensures IsLatest(left, k) && k in left
  {
    ghost var m := LatestExists(left);
    assert IsLatest(left, m);
    k :| IsLatest(left, k);
  }

  lemma KeyHasAFile(cs: Saved, recent: set<TurnKey>, left: set<TurnKey>, k: TurnKey)
    requires KeysAreTurns(cs, recent) && left <= recent && k in left
    ensures k.conversation in cs
  {
  }

  lemma SelectingEnds(cs: Saved, recent: set<TurnKey>, turns: seq<Turn>, eligible: nat, length: Turn -> nat)
    requires Selecting(cs, recent, {}, turns, eligible, length)
    ensures Chronological(cs, turns, recent) && Greedy(cs, turns, recent, eligible, length)
  {
    assert recent - {} == recent;
  }

  // ---------------------------------------------------------------- the whole selection

  predicate Final(s: Status) {
    s == Completed || s == Failed || s == Interrupted
  }

  /** Sent before the latest request: by sequence, or, for a message without one, by time. */
  predicate SentBefore(m: Message, latest: Message) {
    || (m.sequence.Some? && latest.sequence.Some? && m.sequence.value < latest.sequence.value)
    || (m.sequence.None? && m.created < latest.created)
  }

  /** What may be shown to the current conversation: an ended turn of another one, of the same place and provider, that is not its own. */
  ghost predicate MayBeShared(c: Conversation, i: nat, current: Conversation, latest: Message) {
    && i < |c.messages|
    && c.id != current.id && c.workspace == current.workspace && c.repository == current.repository && c.provider == current.provider
    && var m := c.messages[i];
       && m.role.User? && Final(m.status) && SentBefore(m, latest) && (m.session.None? || m.session != c.active)
       && (forall k :: 0 <= k < |current.messages| ==> m.request.None? || current.messages[k].request != m.request)
       && (forall k :: 0 <= k < |c.messages| && Answers(c.messages[k], m) ==> Final(c.messages[k].status))
       && (m.error.Some? || exists k :: 0 <= k < |c.messages| && Answers(c.messages[k], m))
  }

  lemma EligibleMeans(c: Conversation, i: nat, current: Conversation, latest: Message)
    ensures EligibleTurn(c, i, current, latest) <==> MayBeShared(c, i, current, latest)
  {
  }

  /** The eligible turns are exactly those that may be shown, each under its sequence, time, conversation and message. */
  lemma EligibleExactly(cs: Saved, current: Conversation, latest: Message, key: TurnKey)
    ensures key in EligibleTurns(cs, current, latest) <==>
            && key.conversation in cs
            && exists i: nat :: MayBeShared(cs[key.conversation], i, current, latest)
                 && var m := cs[key.conversation].messages[i]; key == TurnKey(m.sequence, m.created, key.conversation, m.id)
  {
    hide MayBeShared, EligibleTurn;
    if key.conversation in cs {
      forall i: nat ensures EligibleTurn(cs[key.conversation], i, current, latest) <==> MayBeShared(cs[key.conversation], i, current, latest) {
        EligibleMeans(cs[key.conversation], i, current, latest);
      }
      forall i: nat | MayBeShared(cs[key.conversation], i, current, latest) ensures i < |cs[key.conversation].messages| {
        InTheConversation(cs[key.conversation], i, current, latest);
      }
    }
  }

  lemma InTheConversation(c: Conversation, i: nat, current: Conversation, latest: Message)
    requires MayBeShared(c, i, current, latest)
    ensures i < |c.messages|
  {
  }

  /** The turn as shown is one of the conversation's that may be shared. */
  ghost predicate ShowsSharedTurn(cs: Saved, t: Turn, current: Conversation, latest: Message) {
    && t.conversation in cs && t.messages != []
    && exists i: nat :: MayBeShared(cs[t.conversation], i, current, latest) && t.messages[0] == Strip(cs[t.conversation].messages[i])
  }

  /** Turns without a sequence come first, by time; the others by sequence. */
  ghost predicate InTimeOrder(turns: seq<Turn>) {
    forall i, j :: 0 <= i < j < |turns| && turns[i].messages != [] && turns[j].messages != [] ==>
      var a, b := turns[i].messages[0], turns[j].messages[0];
      && (a.sequence.Some? ==> b.sequence.Some? && a.sequence.value <= b.sequence.value)
      && (a.sequence == b.sequence ==> a.created <= b.created)
  }

  lemma ChronologicalIsInOrder(cs: Saved, turns: seq<Turn>, from: set<TurnKey>)
    requires Chronological(cs, turns, from)
    ensures InTimeOrder(turns)
  {
    hide WholeTurn;
  }

  lemma ShownIsShared(cs: Saved, current: Conversation, latest: Message, recent: set<TurnKey>, turns: seq<Turn>, n: nat)
    requires IdsFit(cs) && n < |turns| && Chronological(cs, turns, recent)
    requires Newest(EligibleTurns(cs, current, latest), recent, MAX_PRIOR_FEEDBACK_TURNS)
    ensures ShowsSharedTurn(cs, turns[n], current, latest)
  {
    hide EligibleTurns, Older, Strip, SentBefore, Final, Answers;
    var t := turns[n];
    var key := KeyOfTurn(t);
    EligibleExactly(cs, current, latest, key);
    var i: nat :| MayBeShared(cs[key.conversation], i, current, latest)
                  && var m := cs[key.conversation].messages[i]; key == TurnKey(m.sequence, m.created, key.conversation, m.id);
    InTheConversation(cs[key.conversation], i, current, latest);
    FindsItself(cs[key.conversation].messages, i);
    FirstOfTheTurn(cs[key.conversation], i, key);
  }

  lemma FirstOfTheTurn(c: Conversation, i: nat, key: TurnKey)
    requires i < |c.messages| && Find(c.messages, key.message) == Some(i)
    ensures WholeTurnIn(c, key).messages != [] && WholeTurnIn(c, key).messages[0] == Strip(c.messages[i])
  {
    hide Replies, Find;
  }

  /**
   The reads of one selection: each listed file is read once for the scan, and once more when its turn is selected, at
   any points of a run in which all hosts go on working.
   */
  ghost predicate ReadsOf(states: seq<Store>, steps: seq<Step>, cs: Saved, first: Id -> nat, again: TurnKey -> Conversation,
                          second: TurnKey -> nat)
  {
    && Run(states, steps) && Inv(states[0])
    && (forall id :: id in cs ==>
          first(id) < |states| && id in states[first(id)].conversations && cs[id] == states[first(id)].conversations[id])
    && (forall k: TurnKey :: k.conversation in cs ==>
          first(k.conversation) <= second(k) < |states|
          && k.conversation in states[second(k)].conversations && again(k) == states[second(k)].conversations[k.conversation])
  }

  lemma ReadsAreSound(states: seq<Store>, steps: seq<Step>, cs: Saved, first: Id -> nat, again: TurnKey -> Conversation, second: TurnKey -> nat)
    requires ReadsOf(states, steps, cs, first, again, second)
    ensures ConversationsSound(cs)
  {
    hide Sound, Enabled, Apply, Inv, Run;
    forall id | id in cs ensures cs[id].id == id && Sound(cs[id]) {
      ReadIsSound(states, steps, first(id), id);
    }
  }

  lemma ReadIsSound(states: seq<Store>, steps: seq<Step>, n: nat, id: Id)
    requires Run(states, steps) && Inv(states[0]) && n < |states| && id in states[n].conversations
    ensures states[n].conversations[id].id == id && Sound(states[n].conversations[id])
  {
    hide Sound, Enabled, Apply;
    InvAlongRun(states, steps, n);
    assert ConversationsSound(states[n].conversations);
  }

  lemma SameTurnLater(c: Conversation, c': Conversation, i: nat, key: TurnKey)
    requires Sound(c) && Sound(c') && TurnStays(c, c', i) && key.message == c.messages[i].id
    ensures WholeTurnIn(c', key) == WholeTurnIn(c, key)
  {
    hide Replies, Find, Answers;
    FindsItself(c.messages, i);
    FindsItself(c'.messages, i);
    SameReplies(c.messages, c'.messages, c.messages[i], |c'.messages|);
  }

  /** What the scan found eligible is still the same turn, whole and unchanged, when it is read again. */
  lemma ReadAgainIsTheSame(states: seq<Store>, steps: seq<Step>, cs: Saved, first: Id -> nat, again: TurnKey -> Conversation,
                           second: TurnKey -> nat, current: Conversation, latest: Message, key: TurnKey)
    requires ReadsOf(states, steps, cs, first, again, second) && key in EligibleTurns(cs, current, latest)
    ensures key.conversation in cs && WholeTurnIn(again(key), key) == WholeTurn(cs, key)
  {
    hide Sound, Enabled, Apply, Inv, Run, TurnIsSettled, TurnStays, WholeTurnIn;
    var id := key.conversation;
    var i: nat :| i < |cs[id].messages| && EligibleTurn(cs[id], i, current, latest) && KeyFor(id, cs[id].messages[i]) == key;
    EligibleIsSettled(cs[id], i, current, latest);
    ReadIsSound(states, steps, first(id), id);
    ReadIsSound(states, steps, second(key), id);
    SettledTurnsNeverChange(states, steps, first(id), second(key), id, i);
    SameTurnLater(cs[id], again(key), i, key);
  }

  lemma EligibleIsSettled(c: Conversation, i: nat, current: Conversation, latest: Message)
    requires EligibleTurn(c, i, current, latest)
    ensures TurnIsSettled(c, i)
  {
  }

  /**
   What a turn is shown of its siblings: of the 32 newest eligible turns, whole turns in order as long as
   they fit, every eligible turn being either shown or counted as omitted. Other hosts may write between all reads.
   */
  method PriorTurns(ghost states: seq<Store>, ghost steps: seq<Step>, ghost first: Id -> nat, ghost second: TurnKey -> nat,
                    cs: Saved, again: TurnKey -> Conversation, current: Conversation, latest: Message, length: Turn -> nat)
    returns (f: Feedback, recent: set<TurnKey>)
    requires ReadsOf(states, steps, cs, first, again, second) && |cs| <= MAX_SCANNED
    ensures Newest(EligibleTurns(cs, current, latest), recent, MAX_PRIOR_FEEDBACK_TURNS)
    ensures |f.turns| + f.omitted == |EligibleTurns(cs, current, latest)|
    ensures Chronological(cs, f.turns, recent)
    ensures Greedy(cs, f.turns, recent, |EligibleTurns(cs, current, latest)|, length)
    ensures Serialized(f, length) <= MAX_PRIOR_FEEDBACK_BYTES
    ensures InTimeOrder(f.turns) && forall n :: 0 <= n < |f.turns| ==> ShowsSharedTurn(cs, f.turns[n], current, latest)
  {
    hide Newest, Chronological, Greedy, EligibleTurns, Serialized, KeysAreTurns, EligibleTurn, ReadsOf, WholeTurnIn, WholeTurn,
         InTimeOrder, ShowsSharedTurn;
    ReadsAreSound(states, steps, cs, first, again, second);
    SoundFilesFit(cs);
    var count;
    recent, count := RecentTurns(cs, current, latest);
    RecentAreTurns(cs, current, latest, recent);
    FewerDigits(count, MAX_MESSAGES * MAX_SCANNED);
    assert Digits(MAX_MESSAGES * MAX_SCANNED) == 7 by { SevenDigits(); }
    forall k | k in recent ensures k.conversation in cs && WholeTurnIn(again(k), k) == WholeTurn(cs, k) {
      NewestAreEligible(EligibleTurns(cs, current, latest), recent, k);
      ReadAgainIsTheSame(states, steps, cs, first, again, second, current, latest, k);
    }
    f := SelectTurns(cs, again, recent, count, length);
    ChronologicalIsInOrder(cs, f.turns, recent);
    forall n | 0 <= n < |f.turns| ensures ShowsSharedTurn(cs, f.turns[n], current, latest) {
      ShownIsShared(cs, current, latest, recent, f.turns, n);
    }
  }

  lemma NewestAreEligible(all: set<TurnKey>, recent: set<TurnKey>, k: TurnKey)
    requires Newest(all, recent, MAX_PRIOR_FEEDBACK_TURNS) && k in recent
    ensures k in all
  {
  }

  lemma SevenDigits()
    ensures Digits(1_048_576) == 7
  {
    assert Digits(10) == 2 && Digits(104) == 3 && Digits(1_048) == 4 && Digits(10_485) == 5 && Digits(104_857) == 6;
  }

  lemma SoundFilesFit(cs: Saved)
    requires ConversationsSound(cs)
    ensures IdsFit(cs) && forall id :: id in cs ==> |cs[id].messages| <= MAX_MESSAGES
  {
  }

  lemma RecentAreTurns(cs: Saved, current: Conversation, latest: Message, recent: set<TurnKey>)
    requires Newest(EligibleTurns(cs, current, latest), recent, MAX_PRIOR_FEEDBACK_TURNS)
    ensures KeysAreTurns(cs, recent) && |recent| <= |EligibleTurns(cs, current, latest)|
  {
    hide EligibleTurn;
  }

  /** Only finished work is shared: every message of an eligible turn is final, and it belongs to another conversation. */
  lemma SharedTurnsAreOver(cs: Saved, current: Conversation, latest: Message, key: TurnKey)
    requires ConversationsSound(cs) && key in EligibleTurns(cs, current, latest)
    ensures key.conversation in cs && key.conversation != current.id
    ensures var shown := WholeTurn(cs, key).messages;
            shown != [] && shown[0].role.User? && forall k :: 0 <= k < |shown| ==> Ended(shown[k].status)
  {
    var i: nat :| i < |cs[key.conversation].messages| && EligibleTurn(cs[key.conversation], i, current, latest)
                  && KeyFor(key.conversation, cs[key.conversation].messages[i]) == key;
    var c := cs[key.conversation];
    var user := c.messages[i];
    assert Sound(c) && Find(c.messages, key.message) == Some(i);
    var plain := [user] + Replies(c.messages, user, |c.messages|);
    forall k | 0 <= k < |plain| ensures Ended(plain[k].status) {
      if k > 0 {
        RepliesAreTheAnswers(c.messages, user, |c.messages|, plain[k]);
        assert plain[k] in Replies(c.messages, user, |c.messages|);
      }
    }
    assert WholeTurn(cs, key).messages == StripAll(plain);
  }
}
