/** Where each queued message stands in its workspace's queue. */
module QueuePositions {
  import opened Options
  import opened Conversations
  import opened QueueProtocol
  import opened Sorting

  const NO_SEQUENCE := 0xFFFF_FFFF_FFFF_FFFF

  datatype Ticket = Ticket(sequence: nat, id: Id)

  function TicketOf(m: Message): Ticket {
    Ticket(if m.sequence.Some? then m.sequence.value else NO_SEQUENCE, m.id)
  }

  predicate Before(a: Ticket, b: Ticket) {
    a.sequence < b.sequence || (a.sequence == b.sequence && a.id < b.id)
  }

  predicate NotAfter(a: Ticket, b: Ticket) {
    a == b || Before(a, b)
  }

  /** The tickets that wait in a workspace. */
  ghost function QueueOf(all: seq<Conversation>, w: Workspace): set<Ticket> {
    set x, i | 0 <= x < |all| && all[x].workspace == w && i in QueuedAt(all[x]) :: TicketOf(all[x].messages[i])
  }

  ghost function Ahead(queue: set<Ticket>, t: Ticket): set<Ticket> {
    set u | u in queue && Before(u, t)
  }

  /** One plus the number of queued messages of the workspace with a smaller (sequence, id). */
  ghost function Place(queue: set<Ticket>, m: Message): Option<nat> {
    if Waiting(m) then Some(1 + |Ahead(queue, TicketOf(m))|) else None
  }

  ghost predicate IdsDistinct(all: seq<Conversation>) {
    forall x, i, y, j :: (&& 0 <= x < |all| && 0 <= i < |all[x].messages| && 0 <= y < |all| && 0 <= j < |all[y].messages|
                          && all[x].messages[i].id == all[y].messages[j].id)
                         ==> x == y && i == j
  }

  /** r is `all` with every message's position set to its place in the queue. */
  ghost predicate Placed(all: seq<Conversation>, r: seq<Conversation>) {
    && |r| == |all|
    && forall x :: 0 <= x < |all| ==> PlacedOne(all[x], r[x], QueueOf(all, all[x].workspace))
  }

  ghost predicate PlacedOne(c: Conversation, r: Conversation, queue: set<Ticket>) {
    && r == c.(messages := r.messages) && |r.messages| == |c.messages|
    && forall i :: 0 <= i < |c.messages| ==> r.messages[i] == c.messages[i].(position := Place(queue, c.messages[i]))
  }

  // ---------------------------------------------------------------- collecting the queues

  function TicketsIn(ms: seq<Message>, k: nat): seq<Ticket>
    requires k <= |ms|
  {
    if k == 0 then [] else TicketsIn(ms, k - 1) + (if Waiting(ms[k - 1]) then [TicketOf(ms[k - 1])] else [])
  }

  function Collected(all: seq<Conversation>, x: nat, w: Workspace): seq<Ticket>
    requires x <= |all|
  {
    if x == 0 then []
    else Collected(all, x - 1, w)
         + (if all[x - 1].workspace == w then TicketsIn(all[x - 1].messages, |all[x - 1].messages|) else [])
  }

  function Listed(queues: map<Workspace, seq<Ticket>>, w: Workspace): seq<Ticket> {
    if w in queues then queues[w] else []
  }

  lemma TicketsInSteps(ms: seq<Message>)
    ensures TicketsIn(ms, 0) == []
    ensures forall k :: 0 <= k < |ms| ==> TicketsIn(ms, k + 1) == if Waiting(ms[k]) then TicketsIn(ms, k) + [TicketOf(ms[k])] else TicketsIn(ms, k)
  {
  }

  lemma CollectedInSteps(all: seq<Conversation>)
    ensures forall w :: Collected(all, 0, w) == []
    ensures forall x, w :: 0 <= x < |all| ==>
              Collected(all, x + 1, w)
              == if all[x].workspace == w then Collected(all, x, w) + TicketsIn(all[x].messages, |all[x].messages|) else Collected(all, x, w)
  {
    hide TicketsIn;
  }

  method CollectQueues(all: seq<Conversation>) returns (queues: map<Workspace, seq<Ticket>>)
    ensures forall w :: Listed(queues, w) == Collected(all, |all|, w)
  {
    hide Collected, TicketsIn;
    queues := map[];
    var x := 0;
    CollectedInSteps(all);
    while x < |all|
      invariant x <= |all| && forall w :: Listed(queues, w) == Collected(all, x, w)
    {
      queues := CollectOne(queues, all[x].workspace, all[x].messages);
      x := x + 1;
    }
  }

  method CollectOne(queues: map<Workspace, seq<Ticket>>, own: Workspace, ms: seq<Message>) returns (r: map<Workspace, seq<Ticket>>)
    ensures Listed(r, own) == Listed(queues, own) + TicketsIn(ms, |ms|)
    ensures forall w :: w != own ==> Listed(r, w) == Listed(queues, w)
  {
    hide TicketsIn, TicketOf;
    r := queues;
    var i := 0;
    TicketsInSteps(ms);
    assert Listed(queues, own) + [] == Listed(queues, own);
    while i < |ms|
      invariant i <= |ms| && Listed(r, own) == Listed(queues, own) + TicketsIn(ms, i)
      invariant forall w :: w != own ==> Listed(r, w) == Listed(queues, w)
    {
      ghost var tickets := TicketsIn(ms, i);
      if Waiting(ms[i]) {
        assert Listed(queues, own) + (tickets + [TicketOf(ms[i])]) == Listed(queues, own) + tickets + [TicketOf(ms[i])];
        r := r[own := Listed(r, own) + [TicketOf(ms[i])]];
      }
      i := i + 1;
    }
  }

  ghost predicate Distinct(s: seq<Ticket>) {
    forall i, j :: 0 <= i < j < |s| ==> s[i].id != s[j].id
  }

  lemma {:induction false} TicketsInAreTheQueued(ms: seq<Message>, k: nat)
    requires k <= |ms|
    ensures forall t :: t in TicketsIn(ms, k) <==> exists i :: 0 <= i < k && Waiting(ms[i]) && TicketOf(ms[i]) == t
    ensures UniqueIds(ms) ==> Distinct(TicketsIn(ms, k))
  {
    if k > 0 {
      TicketsInAreTheQueued(ms, k - 1);
      forall t | t in TicketsIn(ms, k) ensures exists i :: 0 <= i < k && Waiting(ms[i]) && TicketOf(ms[i]) == t {
        if t in TicketsIn(ms, k - 1) {
        } else {
          assert Waiting(ms[k - 1]) && TicketOf(ms[k - 1]) == t;
        }
      }
      if UniqueIds(ms) {
        assert forall t :: t in TicketsIn(ms, k - 1) ==> t.id != ms[k - 1].id;
      }
    }
  }

  ghost predicate QueuedTicket(all: seq<Conversation>, x: int, i: int, w: Workspace, t: Ticket) {
    0 <= x < |all| && all[x].workspace == w && 0 <= i < |all[x].messages| && Waiting(all[x].messages[i]) && TicketOf(all[x].messages[i]) == t
  }

  lemma {:induction false} CollectedIsTheQueue(all: seq<Conversation>, k: nat, w: Workspace)
    requires IdsDistinct(all) && k <= |all|
    ensures forall t :: t in Collected(all, k, w) <==> exists x, i :: x < k && QueuedTicket(all, x, i, w, t)
    ensures Distinct(Collected(all, k, w))
  {
    if k > 0 {
      CollectedIsTheQueue(all, k - 1, w);
      var ms := all[k - 1].messages;
      TicketsInAreTheQueued(ms, |ms|);
      assert UniqueIds(ms);
      var a := Collected(all, k - 1, w);
      var b := if all[k - 1].workspace == w then TicketsIn(ms, |ms|) else [];
      forall t ensures t in Collected(all, k, w) <==> exists x, i :: x < k && QueuedTicket(all, x, i, w, t) {
        assert t in Collected(all, k, w) <==> t in a || t in b;
        if t in b {
          var i :| 0 <= i < |ms| && Waiting(ms[i]) && TicketOf(ms[i]) == t;
          assert QueuedTicket(all, k - 1, i, w, t);
        }
      }
      forall p, q | 0 <= p < |a| && 0 <= q < |b| ensures a[p].id != b[q].id {
        assert a[p] in a && b[q] in b;
        var x, i :| x < k - 1 && QueuedTicket(all, x, i, w, a[p]);
        var j :| 0 <= j < |ms| && Waiting(ms[j]) && TicketOf(ms[j]) == b[q];
        assert all[x].messages[i].id == a[p].id && all[k - 1].messages[j].id == b[q].id;
      }
    }
  }

  lemma QueueIsCollected(all: seq<Conversation>, w: Workspace)
    requires IdsDistinct(all)
    ensures Distinct(Collected(all, |all|, w))
    ensures forall t :: t in Collected(all, |all|, w) <==> t in QueueOf(all, w)
  {
    CollectedIsTheQueue(all, |all|, w);
    forall t | t in Collected(all, |all|, w) ensures t in QueueOf(all, w) {
      var x, i :| x < |all| && QueuedTicket(all, x, i, w, t);
      assert i in QueuedAt(all[x]);
    }
    forall t | t in QueueOf(all, w) ensures t in Collected(all, |all|, w) {
      var x, i :| 0 <= x < |all| && all[x].workspace == w && i in QueuedAt(all[x]) && TicketOf(all[x].messages[i]) == t;
      assert QueuedTicket(all, x, i, w, t);
    }
  }

  // ---------------------------------------------------------------- ranks

  function Ordered(all: seq<Conversation>, w: Workspace): seq<Ticket> {
    Sort(NotAfter, Collected(all, |all|, w))
  }

  lemma {:induction false} PrefixSize(s: seq<Ticket>, k: nat)
    requires Distinct(s) && k <= |s|
    ensures |set i | 0 <= i < k :: s[i]| == k
  {
    if k > 0 {
      PrefixSize(s, k - 1);
      assert (set i | 0 <= i < k :: s[i]) == (set i | 0 <= i < k - 1 :: s[i]) + {s[k - 1]};
      assert s[k - 1] !in (set i | 0 <= i < k - 1 :: s[i]);
    }
  }

  lemma OccursTwice(s: seq<Ticket>, i: nat, j: nat)
    requires i < j < |s| && s[i] == s[j]
    ensures multiset(s)[s[i]] >= 2
  {
    assert s == s[..i] + [s[i]] + s[i + 1..j] + [s[j]] + s[j + 1..];
  }

  lemma OccursOnce(s: seq<Ticket>, a: nat)
    requires Distinct(s) && a < |s|
    ensures multiset(s)[s[a]] == 1
  {
    assert s == s[..a] + [s[a]] + s[a + 1..];
    assert s[a] !in s[..a] && s[a] !in s[a + 1..];
  }

  lemma SortKeepsDistinct(s: seq<Ticket>, r: seq<Ticket>)
    requires Distinct(s) && multiset(r) == multiset(s)
    ensures Distinct(r)
  {
    forall i, j | 0 <= i < j < |r| ensures r[i].id != r[j].id {
      assert r[i] in multiset(s) && r[j] in multiset(s);
      var a :| 0 <= a < |s| && s[a] == r[i];
      var b :| 0 <= b < |s| && s[b] == r[j];
      if r[i] == r[j] {
        OccursTwice(r, i, j);
        OccursOnce(s, a);
        assert false;
      }
    }
  }

  /** In the sorted queue, the index of a ticket is the number of tickets ahead of it. */
  lemma OrderedIndexIsRank(all: seq<Conversation>, w: Workspace, k: nat)
    requires IdsDistinct(all) && k < |Ordered(all, w)|
    ensures Ordered(all, w)[k] in QueueOf(all, w)
    ensures |Ahead(QueueOf(all, w), Ordered(all, w)[k])| == k
    ensures Distinct(Ordered(all, w))
  {
    hide QueueOf, Ahead, Collected;
    var s, r := Collected(all, |all|, w), Ordered(all, w);
    QueueIsCollected(all, w);
    SortSorts(NotAfter, s);
    SortHasTheSameElements(NotAfter, s);
    SortKeepsDistinct(s, r);
    assert forall t :: t in r <==> t in QueueOf(all, w);
    IndexIsRank(QueueOf(all, w), r, k);
  }

  lemma IndexIsRank(queue: set<Ticket>, r: seq<Ticket>, k: nat)
    requires k < |r| && SortedBy(NotAfter, r) && Distinct(r) && forall t :: t in r <==> t in queue
    ensures r[k] in queue && |Ahead(queue, r[k])| == k
  {
    var first := set i | 0 <= i < k :: r[i];
    PrefixSize(r, k);
    forall t ensures t in Ahead(queue, r[k]) <==> t in first {
      if t in Ahead(queue, r[k]) {
        var i :| 0 <= i < |r| && r[i] == t;
        assert k < i ==> NotAfter(r[k], r[i]);
      }
      if t in first {
        var i :| 0 <= i < k && r[i] == t;
        assert NotAfter(r[i], r[k]) && r[i] in r;
      }
    }
    assert Ahead(queue, r[k]) == first;
  }

  lemma EveryQueuedTicketIsOrdered(all: seq<Conversation>, w: Workspace, t: Ticket) returns (k: nat)
    requires IdsDistinct(all) && t in QueueOf(all, w)
    ensures k < |Ordered(all, w)| && Ordered(all, w)[k] == t
  {
    QueueIsCollected(all, w);
    SortHasTheSameElements(NotAfter, Collected(all, |all|, w));
    k :| k < |Ordered(all, w)| && Ordered(all, w)[k] == t;
  }

  // ---------------------------------------------------------------- assigning the positions

  /** Positions for the workspaces in done, and for no other message. */
  ghost predicate Numbered(all: seq<Conversation>, positions: map<Id, nat>, done: set<Workspace>) {
    && (forall w, k :: w in done && 0 <= k < |Ordered(all, w)|
          ==> Ordered(all, w)[k].id in positions && positions[Ordered(all, w)[k].id] == k + 1)
    && (forall id :: id in positions ==> exists w, k :: w in done && 0 <= k < |Ordered(all, w)| && Ordered(all, w)[k].id == id)
  }

  lemma OrderedIdsDistinct(all: seq<Conversation>, w: Workspace, k: nat, w': Workspace, k': nat)
    requires IdsDistinct(all) && k < |Ordered(all, w)| && k' < |Ordered(all, w')|
    requires Ordered(all, w)[k].id == Ordered(all, w')[k'].id
    ensures w == w' && k == k'
  {
    OrderedIndexIsRank(all, w, k);
    OrderedIndexIsRank(all, w', k');
    var x, i :| 0 <= x < |all| && all[x].workspace == w && i in QueuedAt(all[x]) && TicketOf(all[x].messages[i]) == Ordered(all, w)[k];
    var y, j :| 0 <= y < |all| && all[y].workspace == w' && j in QueuedAt(all[y]) && TicketOf(all[y].messages[j]) == Ordered(all, w')[k'];
    assert x == y;
  }

  method NumberQueues(all: seq<Conversation>, queues: map<Workspace, seq<Ticket>>) returns (positions: map<Id, nat>)
    requires IdsDistinct(all) && forall w :: Listed(queues, w) == Collected(all, |all|, w)
    ensures Numbered(all, positions, queues.Keys)
  {
    positions := map[];
    var left := queues.Keys;
    while left != {}
      invariant left <= queues.Keys && Numbered(all, positions, queues.Keys - left)
      decreases |left|
    {
      var w :| w in left;
      var queue := Sort(NotAfter, queues[w]);
      assert queues[w] == Listed(queues, w);
      ghost var done := queues.Keys - left;
      ghost var before := positions;
      NewQueueIsUnnumbered(all, positions, done, w);
      positions := NumberOne(queue, positions);
      NumberedGrows(all, before, positions, done, w);
      left := left - {w};
      assert queues.Keys - left == done + {w};
    }
    assert queues.Keys - left == queues.Keys;
  }

  /** after is before plus the numbers of one more queue. */
  ghost predicate NumberedAlso(queue: seq<Ticket>, before: map<Id, nat>, after: map<Id, nat>) {
    && (forall i :: 0 <= i < |queue| ==> queue[i].id in after && after[queue[i].id] == i + 1)
    && (forall id :: id in before ==> id in after && after[id] == before[id])
    && (forall id :: id in after ==> id in before || exists i :: 0 <= i < |queue| && queue[i].id == id)
  }

  method NumberOne(queue: seq<Ticket>, before: map<Id, nat>) returns (positions: map<Id, nat>)
    requires Distinct(queue) && forall i :: 0 <= i < |queue| ==> queue[i].id !in before
    ensures NumberedAlso(queue, before, positions)
  {
    positions := before;
    var k := 0;
    while k < |queue|
      invariant k <= |queue|
      invariant forall i :: 0 <= i < k ==> queue[i].id in positions && positions[queue[i].id] == i + 1
      invariant forall id :: id in before ==> id in positions && positions[id] == before[id]
      invariant forall id :: id in positions ==> id in before || exists i :: 0 <= i < k && queue[i].id == id
    {
      positions := positions[queue[k].id := k + 1];
      k := k + 1;
    }
  }

  lemma NewQueueIsUnnumbered(all: seq<Conversation>, positions: map<Id, nat>, done: set<Workspace>, w: Workspace)
    requires IdsDistinct(all) && Numbered(all, positions, done) && w !in done
    ensures Distinct(Ordered(all, w)) && forall i :: 0 <= i < |Ordered(all, w)| ==> Ordered(all, w)[i].id !in positions
  {
    hide Ordered;
    if |Ordered(all, w)| > 0 { OrderedIndexIsRank(all, w, 0); }
    forall i | 0 <= i < |Ordered(all, w)| ensures Ordered(all, w)[i].id !in positions {
      if Ordered(all, w)[i].id in positions {
        var v, j :| v in done && 0 <= j < |Ordered(all, v)| && Ordered(all, v)[j].id == Ordered(all, w)[i].id;
        OrderedIdsDistinct(all, v, j, w, i);
        assert false;
      }
    }
  }

  lemma NumberedGrows(all: seq<Conversation>, before: map<Id, nat>, after: map<Id, nat>, done: set<Workspace>, w: Workspace)
    requires Numbered(all, before, done) && NumberedAlso(Ordered(all, w), before, after)
    ensures Numbered(all, after, done + {w})
  {
    hide Ordered;
  }

  function At(positions: map<Id, nat>, id: Id): Option<nat> {
    if id in positions then Some(positions[id]) else None
  }

  method AssignPositions(all: seq<Conversation>, positions: map<Id, nat>) returns (r: seq<Conversation>)
    ensures |r| == |all|
    ensures forall x :: 0 <= x < |all| ==> r[x] == all[x].(messages := r[x].messages) && |r[x].messages| == |all[x].messages|
    ensures forall x, i :: 0 <= x < |all| && 0 <= i < |all[x].messages|
              ==> r[x].messages[i] == all[x].messages[i].(position := At(positions, all[x].messages[i].id))
  {
    r := [];
    var x := 0;
    while x < |all|
      invariant x <= |all| && |r| == x
      invariant forall y :: 0 <= y < x ==> r[y] == all[y].(messages := r[y].messages) && |r[y].messages| == |all[y].messages|
      invariant forall y, i :: 0 <= y < x && 0 <= i < |all[y].messages|
                  ==> r[y].messages[i] == all[y].messages[i].(position := At(positions, all[y].messages[i].id))
    {
      var ms := all[x].messages;
      var i := 0;
      while i < |ms|
        invariant i <= |ms| == |all[x].messages|
        invariant forall k :: 0 <= k < i ==> ms[k] == all[x].messages[k].(position := At(positions, all[x].messages[k].id))
        invariant forall k :: i <= k < |ms| ==> ms[k] == all[x].messages[k]
      {
        ms := ms[i := ms[i].(position := At(positions, ms[i].id))];
        i := i + 1;
      }
      r := r + [all[x].(messages := ms)];
      x := x + 1;
    }
  }

  method SetQueuePositions(all: seq<Conversation>) returns (r: seq<Conversation>)
    requires IdsDistinct(all)
    ensures Placed(all, r)
  {
    var queues := CollectQueues(all);
    var positions := NumberQueues(all, queues);
    r := AssignPositions(all, positions);
    forall x, i | 0 <= x < |all| && 0 <= i < |all[x].messages|
      ensures At(positions, all[x].messages[i].id) == Place(QueueOf(all, all[x].workspace), all[x].messages[i])
    {
      PositionIsPlace(all, queues, positions, x, i);
    }
  }

  lemma PositionIsPlace(all: seq<Conversation>, queues: map<Workspace, seq<Ticket>>, positions: map<Id, nat>, x: nat, i: nat)
    requires IdsDistinct(all) && Numbered(all, positions, queues.Keys)
    requires forall w :: Listed(queues, w) == Collected(all, |all|, w)
    requires x < |all| && i < |all[x].messages|
    ensures At(positions, all[x].messages[i].id) == Place(QueueOf(all, all[x].workspace), all[x].messages[i])
  {
    hide Numbered, Collected, Ordered, Listed, IdsDistinct;
    if Waiting(all[x].messages[i]) {
      QueuedIsNumbered(all, queues, positions, x, i);
    } else {
      UnqueuedIsUnnumbered(all, positions, queues.Keys, x, i);
    }
  }

  lemma QueuedIsNumbered(all: seq<Conversation>, queues: map<Workspace, seq<Ticket>>, positions: map<Id, nat>, x: nat, i: nat)
    requires IdsDistinct(all) && Numbered(all, positions, queues.Keys)
    requires forall w :: Listed(queues, w) == Collected(all, |all|, w)
    requires x < |all| && i < |all[x].messages| && Waiting(all[x].messages[i])
    ensures At(positions, all[x].messages[i].id) == Place(QueueOf(all, all[x].workspace), all[x].messages[i])
  {
    hide Collected, Ordered, IdsDistinct;
    var t, w := TicketOf(all[x].messages[i]), all[x].workspace;
    assert i in QueuedAt(all[x]);
    assert t in QueueOf(all, w);
    var k := EveryQueuedTicketIsOrdered(all, w, t);
    OrderedIndexIsRank(all, w, k);
    QueueIsCollected(all, w);
    assert Listed(queues, w) != [];
  }

  lemma UnqueuedIsUnnumbered(all: seq<Conversation>, positions: map<Id, nat>, done: set<Workspace>, x: nat, i: nat)
    requires IdsDistinct(all) && Numbered(all, positions, done)
    requires x < |all| && i < |all[x].messages| && !Waiting(all[x].messages[i])
    ensures all[x].messages[i].id !in positions
  {
    hide Ordered;
    if all[x].messages[i].id in positions {
      var v, k :| v in done && 0 <= k < |Ordered(all, v)| && Ordered(all, v)[k].id == all[x].messages[i].id;
      OrderedIndexIsRank(all, v, k);
      assert false;
    }
  }

  // ---------------------------------------------------------------- one conversation and the whole store

  ghost function StoreQueue(cs: Saved, w: Workspace): set<Ticket> {
    set id, i | id in cs && cs[id].workspace == w && i in QueuedAt(cs[id]) :: TicketOf(cs[id].messages[i])
  }

  /** all lists conversations of the store, once each, and misses none that has work. */
  ghost predicate ListsWork(cs: Saved, all: seq<Conversation>) {
    && (forall x :: 0 <= x < |all| ==> all[x].id in cs && cs[all[x].id] == all[x])
    && (forall x, y :: 0 <= x < y < |all| ==> all[x].id != all[y].id)
    && (forall id :: id in cs && HasWork(cs[id]) ==> exists x :: 0 <= x < |all| && all[x] == cs[id])
  }

  lemma ListedIdsAreDistinct(cs: Saved, issued: Names, all: seq<Conversation>)
    requires IdsIssued(cs, issued) && ListsWork(cs, all)
    ensures IdsDistinct(all)
  {
    forall x, i, y, j | 0 <= x < |all| && 0 <= i < |all[x].messages| && 0 <= y < |all| && 0 <= j < |all[y].messages|
                        && all[x].messages[i].id == all[y].messages[j].id
      ensures x == y && i == j
    {
      assert issued[all[x].messages[i].id] == Some(Slot(all[x].id, i));
      assert issued[all[y].messages[j].id] == Some(Slot(all[y].id, j));
    }
  }

  lemma WorkListHasTheWholeQueue(cs: Saved, all: seq<Conversation>, w: Workspace)
    requires ListsWork(cs, all)
    ensures QueueOf(all, w) == StoreQueue(cs, w)
  {
    forall t | t in StoreQueue(cs, w) ensures t in QueueOf(all, w) {
      var id, i :| id in cs && cs[id].workspace == w && i in QueuedAt(cs[id]) && TicketOf(cs[id].messages[i]) == t;
      assert HasWork(cs[id]);
      var x :| 0 <= x < |all| && all[x] == cs[id];
    }
  }

  function Blank(c: Conversation): (r: Conversation)
    ensures |r.messages| == |c.messages|
  {
    c.(messages := seq(|c.messages|, i requires 0 <= i < |c.messages| => c.messages[i].(position := None)))
  }

  method FindConversation(all: seq<Conversation>, id: Id) returns (x: nat)
    ensures x <= |all| && (x < |all| ==> all[x].id == id)
    ensures x == |all| ==> forall y :: 0 <= y < |all| ==> all[y].id != id
  {
    x := 0;
    while x < |all|
      invariant x <= |all| && forall y :: 0 <= y < x ==> all[y].id != id
    {
      if all[x].id == id { return; }
      x := x + 1;
    }
  }

  /** The single-conversation form, used after every read or edit: the same places as the whole store gives. */
  method SetConversationQueuePositions(all: seq<Conversation>, c: Conversation, ghost cs: Saved, ghost issued: Names)
    returns (r: Conversation)
    requires IdsIssued(cs, issued) && ListsWork(cs, all) && c.id in cs && cs[c.id] == c
    ensures PlacedOne(c, r, StoreQueue(cs, c.workspace))
  {
    var blank := Blank(c);
    var x := FindConversation(all, c.id);
    ListedIdsAreDistinct(cs, issued, all);
    WorkListHasTheWholeQueue(cs, all, c.workspace);
    if x == |all| {
      assert !HasWork(c);
      return blank;
    }
    var all' := all[x := blank];
    assert forall i :: 0 <= i < |c.messages| ==> TicketOf(blank.messages[i]) == TicketOf(c.messages[i]);
    assert QueuedAt(blank) == QueuedAt(c);
    BlankKeepsQueue(all, all', x, c.workspace);
    var placed := SetQueuePositions(all');
    var y := FindConversation(placed, c.id);
    assert placed[x].id == c.id;
    assert forall z :: 0 <= z < |all| && z != x ==> placed[z].id == all[z].id != c.id;
    r := placed[y];
  }

  lemma BlankKeepsQueue(all: seq<Conversation>, all': seq<Conversation>, x: nat, w: Workspace)
    requires x < |all| && all' == all[x := Blank(all[x])]
    ensures QueueOf(all', w) == QueueOf(all, w)
    ensures IdsDistinct(all) ==> IdsDistinct(all')
  {
    forall y | 0 <= y < |all|
      ensures all'[y].workspace == all[y].workspace && QueuedAt(all'[y]) == QueuedAt(all[y])
      ensures |all'[y].messages| == |all[y].messages|
      ensures forall i :: 0 <= i < |all[y].messages|
                ==> all'[y].messages[i].id == all[y].messages[i].id && TicketOf(all'[y].messages[i]) == TicketOf(all[y].messages[i])
    {
    }
  }

  /** The whole-store form places every message by the store's queues as well. */
  lemma BothFormsAgree(cs: Saved, issued: Names, all: seq<Conversation>, r: seq<Conversation>, x: nat, single: Conversation)
    requires IdsIssued(cs, issued) && ListsWork(cs, all) && Placed(all, r) && x < |all|
    requires PlacedOne(all[x], single, StoreQueue(cs, all[x].workspace))
    ensures r[x] == single
  {
    WorkListHasTheWholeQueue(cs, all, all[x].workspace);
    assert r[x].messages == single.messages;
  }

  // ---------------------------------------------------------------- what a position says

  lemma SubsetIsSmaller(a: set<Ticket>, b: set<Ticket>, t: Ticket)
    requires a <= b && t in b && t !in a
    ensures |a| < |b|
  {
    var rest := b - {t};
    assert a <= rest;
    NoMore(a, rest);
  }

  lemma {:induction false} NoMore(a: set<Ticket>, b: set<Ticket>)
    requires a <= b
    ensures |a| <= |b|
  {
    if a != {} {
      var t :| t in a;
      NoMore(a - {t}, b - {t});
    }
  }

  /** Of two messages that wait in a workspace the one that was sent first has the smaller position, and the first of all has 1. */
  lemma PositionsFollowTheOrderSent(cs: Saved, x: Id, i: nat, y: Id, j: nat)
    requires x in cs && i < |cs[x].messages| && y in cs && j < |cs[y].messages| && cs[x].workspace == cs[y].workspace
    requires cs[x].messages[i].status.Queued? && cs[y].messages[j].status.Queued?
    requires cs[x].messages[i].sequence.Some? && cs[y].messages[j].sequence.Some?
    ensures var queue := StoreQueue(cs, cs[x].workspace);
            var a, b := Place(queue, cs[x].messages[i]), Place(queue, cs[y].messages[j]);
            && a.Some? && b.Some? && a.value >= 1 && b.value <= |queue|
            && (cs[x].messages[i].sequence.value < cs[y].messages[j].sequence.value ==> a.value < b.value)
  {
    var queue := StoreQueue(cs, cs[x].workspace);
    var m, n := cs[x].messages[i], cs[y].messages[j];
    assert TicketOf(m) in queue && TicketOf(n) in queue;
    SubsetIsSmaller(Ahead(queue, TicketOf(n)), queue, TicketOf(n));
    if m.sequence.value < n.sequence.value {
      SubsetIsSmaller(Ahead(queue, TicketOf(m)), Ahead(queue, TicketOf(n)), TicketOf(m));
    }
  }

  lemma TheNextIsFirst(cs: Saved, x: Id, i: nat)
    requires x in cs && i < |cs[x].messages| && cs[x].messages[i].status.Queued? && cs[x].messages[i].sequence.Some?
    requires forall y, j :: y in cs && cs[y].workspace == cs[x].workspace && 0 <= j < |cs[y].messages| && cs[y].messages[j].status.Queued?
               ==> cs[y].messages[j].sequence.Some? && ((y == x && j == i) || cs[x].messages[i].sequence.value < cs[y].messages[j].sequence.value)
    ensures Place(StoreQueue(cs, cs[x].workspace), cs[x].messages[i]) == Some(1)
  {
    var queue := StoreQueue(cs, cs[x].workspace);
    assert Ahead(queue, TicketOf(cs[x].messages[i])) == {};
  }
}
