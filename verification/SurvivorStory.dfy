/**
 A history that ends with a turn that may start although a process of the workspace's earlier turn survives:
 the two turns are for different repositories, and the lease file is named after the repository as well.
 */
module SurvivorStory {
  import opened Options
  import opened Conversations
  import opened ConversationEdits
  import opened QueueProtocol
  import opened QueueRuns
  import opened SharedDisk

  const FIRST := Conversation(0, 0, 0, 0, false, [], None, [])
  const SECOND := Conversation(1, 0, 1, 0, false, [], None, [])

  /** Two conversations of workspace 0, for repositories 0 and 1. */
  function Created(): Store {
    Put(Put(EMPTY, 0, FIRST), 1, SECOND)
  }

  function Asked(): Store {
    AfterEnqueue(Created().(counter := 1), 0, 100, 50, "a", 0)
  }

  function Started(): Store {
    AfterClaim(Asked(), 0, 0, 0, 7, 101, 0)
  }

  /** The turn's child process inherits the lease; then the worker ends the turn. */
  function Ended(): Store {
    var s := Started().(children := {7});
    AfterFinish(s, 7, None, false, None)
  }

  function AskedAgain(): Store {
    AfterEnqueue(Ended().(counter := 2), 1, 102, 51, "c", 0)
  }

  lemma CreatedIsReached()
    ensures Reaches(EMPTY, Created())
  {
    ReachesItself(EMPTY);
    ReachesByStep(EMPTY, EMPTY, Create(FIRST));
    ReachesByStep(EMPTY, Put(EMPTY, 0, FIRST), Create(SECOND));
  }

  lemma NoneQueued(s: Store)
    requires forall id :: id in s.conversations ==> QueuedAt(s.conversations[id]) == {}
    ensures forall w :: QueuedIn(s.conversations, w) == {}
  {
  }

  lemma AskedIsReached()
    ensures Reaches(EMPTY, Asked())
    ensures var c := Asked().conversations[0];
            && c == FIRST.(messages := [NewRequest(100, 50, "a", 1, 0)]) && QueuedAt(c) == {0}
            && Asked().conversations == map[0 := c, 1 := SECOND]
            && Asked().issued.Keys == {100} && Asked().tickets.Keys == {1} && Asked().homes == map[] && Asked().counter == 1
            && Holders(Asked()) == {} && Asked().children == {} && Asked().others == {}
  {
    CreatedIsReached();
    var s := Created().(counter := 1);
    ReachesByStep(EMPTY, Created(), Reserve);
    assert QueuedAt(FIRST) == {} && QueuedAt(SECOND) == {};
    NoneQueued(s);
    assert CanEnqueue(s, 0, 100, 50);
    ReachesByStep(EMPTY, s, Enqueue(0, 100, 50, "a", 0));
    AppendedQueue(FIRST, NewRequest(100, 50, "a", 1, 0));
  }

  lemma StartedIsReached()
    ensures Reaches(EMPTY, Started())
    ensures var c := Started().conversations[0];
            && |c.messages| == 2 && c.active == Some(7) && QueuedAt(c) == {} && KeyOf(c) == Key(0, 0)
            && TurnAt(c, 0, 1, 7) && c.messages[1].id == 101 && UniqueIds(c.messages)
            && Started().conversations == map[0 := c, 1 := SECOND]
            && Started().issued.Keys == {100, 7, 101} && Started().tickets.Keys == {1} && Started().homes == map[7 := 0]
            && Started().workers == map[7 := Worker(0, 101)] && Started().children == {} && Started().others == {} && Started().counter == 1
  {
    hide Reaches, Asked;
    AskedIsReached();
    var s := Asked();
    assert QueuedAt(SECOND) == {};
    assert Eligible(s.conversations, 0, 0);
    assert CanClaim(s, 0, 0, 7, 101);
    ReachesByStep(EMPTY, s, Claim(0, 0, 0, 7, 101, 0));
    var c := Started().conversations[0];
    assert c.messages == [s.conversations[0].messages[0].(status := Running, session := Some(7), position := None), NewReply(101, Some(50), 7, 0)];
    assert QueuedAt(c) == {};
  }

  lemma EndedIsReached()
    ensures Reaches(EMPTY, Ended())
    ensures var c := Ended().conversations[0];
            && c.active.None? && QueuedAt(c) == {} && KeyOf(c) == Key(0, 0)
            && Ended().conversations == map[0 := c, 1 := SECOND]
            && Ended().issued.Keys == {100, 7, 101} && Ended().tickets.Keys == {1} && Ended().homes == map[7 := 0]
            && Ended().workers == map[] && Ended().children == {7} && Ended().others == {} && Ended().counter == 1
  {
    hide Reaches, Started;
    StartedIsReached();
    ReachesByStep(EMPTY, Started(), Spawn(7));
    var s := Started().(children := {7});
    assert s.children == Started().children + {7};
    ReachesByStep(EMPTY, s, Finish(7, None, false, None));
    FinishedTouchesOnlyTheTurn(s.conversations[0], 0, 1, 7, None, Completed, None);
    var c := Finished(s.conversations[0], 101, 7, None, Completed, None);
    assert Ended().conversations[0] == c;
    assert |c.messages| == 2 && !Waiting(c.messages[0]) && !Waiting(c.messages[1]);
    assert QueuedAt(c) == {};
  }

  lemma AskedAgainIsReached()
    ensures Reaches(EMPTY, AskedAgain())
    ensures var c, d := AskedAgain().conversations[0], AskedAgain().conversations[1];
            && c.active.None? && QueuedAt(c) == {} && KeyOf(c) == Key(0, 0) && QueuedAt(d) == {0} && d.active.None? && KeyOf(d) == Key(0, 1)
            && AskedAgain().conversations == map[0 := c, 1 := d]
            && AskedAgain().issued.Keys == {100, 7, 101, 102} && AskedAgain().homes == map[7 := 0]
            && Holders(AskedAgain()) == {7} && AskedAgain().children == {7} && AskedAgain().others == {}
  {
    hide Reaches, Ended;
    EndedIsReached();
    var s := Ended().(counter := 2);
    ReachesByStep(EMPTY, Ended(), Reserve);
    assert QueuedAt(SECOND) == {};
    NoneQueued(s);
    assert CanEnqueue(s, 1, 102, 51);
    ReachesByStep(EMPTY, s, Enqueue(1, 102, 51, "c", 0));
    AppendedQueue(SECOND, NewRequest(102, 51, "c", 2, 0));
  }

  /** So a turn can start in a workspace while a process of its earlier turn is still alive. */
  lemma SurvivorElsewhereDoesNotBlock()
    ensures Reachable(AskedAgain()) && 7 in AskedAgain().children && 7 in AskedAgain().homes
    ensures Homed(AskedAgain().conversations, AskedAgain().homes, 7)
    ensures LeaseOf(AskedAgain().conversations, AskedAgain().homes, 7).workspace == 0
    ensures 1 in AskedAgain().conversations && AskedAgain().conversations[1].workspace == 0
    ensures CanClaim(AskedAgain(), 1, 0, 8, 103)
  {
    hide Reaches, Reachable, AskedAgain;
    AskedAgainIsReached();
    ReachedIsReachable(AskedAgain());
    assert Eligible(AskedAgain().conversations, 1, 0);
  }

  lemma ReachedIsReachable(s: Store)
    requires Reaches(EMPTY, s)
    ensures Reachable(s)
  {
    hide Enabled, Apply;
    var states, steps :| Run(states, steps) && states[0] == EMPTY && states[|steps|] == s;
    assert History(states, steps);
  }
}
