/**
 The shared queue as a transition system. One state holds what is on disk (conversations and
 the sequence counter), who holds which turn lease, and a history of starts. Every step of
 every host, every crash and every lease event is one Step; Inv is kept by all of them.
 */
module QueueProtocol {
  import opened Options
  import opened Conversations

  const MAX_QUEUED_PER_WORKSPACE := 64

  /** A turn lease is one file per workspace and repository. */
  datatype Key = Key(workspace: Workspace, repository: Repository)

  datatype Slot = Slot(conversation: Id, index: nat)

  /** What a random id was handed out for: a message, or (None) a session. */
  type Names = map<Id, Option<Slot>>

  /** A thread that runs a claimed turn; while it lives it holds the turn's lease. */
  datatype Worker = Worker(host: nat, reply: Id)

  /** History: a queued message left the queue by being started, or by failing to start. */
  datatype Start = Start(workspace: Workspace, sequence: nat, launched: bool)

  datatype Store = Store(
    conversations: map<Id, Conversation>,
    counter: nat,
    workers: map<Id, Worker>,    // by session
    children: set<Id>,           // sessions whose lease some surviving process inherited
    others: set<Key>,            // leases that restore, check and integration work holds
    tickets: map<nat, Slot>,     // history: which message got which sequence
    homes: map<Id, Id>,          // history: which conversation a session belongs to
    issued: Names,               // history: random ids handed out
    finished: set<Id>,           // history: sessions ended by their own worker
    starts: seq<Start>)          // history

  datatype Step =
    | Create(conversation: Conversation)
    | Reserve
    | Enqueue(id: Id, message: Id, request: Id, body: string, now: int)
    | Change(id: Id, message: Id, request: Id, expected: string, edit: Option<string>)
    | Recover(id: Id)
    | Claim(host: nat, id: Id, index: nat, session: Id, reply: Id, now: int)
    | Refuse(id: Id, index: nat, error: string)
    | Progress(session: Id, update: Option<string>)
    | Finish(session: Id, output: Option<Output>, interrupted: bool, failure: Option<string>)
    | Spawn(session: Id)
    | Exit(session: Id)
    | Lose(session: Id)
    | HostDeath(host: nat)
    | Borrow(key: Key)
    | Return(key: Key)

  type Saved = map<Id, Conversation>

  // ---------------------------------------------------------------- leases and eligibility

  function KeyOf(c: Conversation): Key {
    Key(c.workspace, c.repository)
  }

  predicate Homed(cs: Saved, homes: map<Id, Id>, session: Id) {
    session in homes && homes[session] in cs
  }

  /** The lease that a session was claimed under. */
  function LeaseOf(cs: Saved, homes: map<Id, Id>, session: Id): Key
    requires Homed(cs, homes, session)
  {
    KeyOf(cs[homes[session]])
  }

  function Holders(s: Store): set<Id> {
    s.workers.Keys + s.children
  }

  predicate Unheld(cs: Saved, homes: map<Id, Id>, holders: set<Id>, key: Key) {
    forall x :: x in holders && Homed(cs, homes, x) ==> LeaseOf(cs, homes, x) != key
  }

  /** flock succeeds: no worker, no surviving child and no other operation has the file locked. */
  predicate LeaseFree(s: Store, key: Key) {
    key !in s.others && Unheld(s.conversations, s.homes, Holders(s), key)
  }

  ghost predicate Idle(cs: Saved, workspace: Workspace) {
    forall id :: id in cs && cs[id].workspace == workspace ==> cs[id].active.None?
  }

  function SequenceAt(c: Conversation, index: nat): nat
    requires index < |c.messages|
  {
    if c.messages[index].sequence.Some? then c.messages[index].sequence.value else 0
  }

  /** (id, index) is the least queued message of its workspace, and the workspace runs no turn. */
  ghost predicate Eligible(cs: Saved, id: Id, index: nat) {
    && id in cs && index in QueuedAt(cs[id]) && Idle(cs, cs[id].workspace)
    && forall x, i :: x in cs && cs[x].workspace == cs[id].workspace && i in QueuedAt(cs[x])
         ==> SequenceAt(cs[id], index) <= SequenceAt(cs[x], i)
  }

  ghost function QueuedIn(cs: Saved, workspace: Workspace): set<Slot> {
    set id, i | id in cs && cs[id].workspace == workspace && i in QueuedAt(cs[id]) :: Slot(id, i)
  }

  // ---------------------------------------------------------------- steps

  function Put(s: Store, id: Id, c: Conversation): Store {
    s.(conversations := s.conversations[id := c])
  }

  ghost predicate CanEnqueue(s: Store, id: Id, message: Id, request: Id) {
    && id in s.conversations
    && |s.conversations[id].messages| + |QueuedAt(s.conversations[id])| < MAX_TURN_SLOTS
    && (forall i :: 0 <= i < |s.conversations[id].messages| ==> !Asked(s.conversations[id].messages[i], request))
    && message !in s.issued && s.counter !in s.tickets
    && |QueuedIn(s.conversations, s.conversations[id].workspace)| < MAX_QUEUED_PER_WORKSPACE
  }

  function AfterEnqueue(s: Store, id: Id, message: Id, request: Id, body: string, now: int): Store
    requires id in s.conversations
  {
    var c := s.conversations[id];
    Put(s, id, Enqueued(c, NewRequest(message, request, body, s.counter, now)))
      .(tickets := s.tickets[s.counter := Slot(id, |c.messages|)], issued := s.issued[message := Some(Slot(id, |c.messages|))])
  }

  function AfterChange(s: Store, id: Id, r: Mutation): Store {
    if r.Applied? then Put(s, id, r.conversation) else s
  }

  ghost predicate CanRecover(s: Store, id: Id) {
    id in s.conversations && s.conversations[id].active.Some? && LeaseFree(s, KeyOf(s.conversations[id]))
  }

  ghost predicate CanClaim(s: Store, id: Id, index: nat, session: Id, reply: Id) {
    && Eligible(s.conversations, id, index) && LeaseFree(s, KeyOf(s.conversations[id]))
    && session !in s.issued && reply !in s.issued && session != reply
  }

  function AfterClaim(s: Store, host: nat, id: Id, index: nat, session: Id, reply: Id, now: int): Store
    requires id in s.conversations && index < |s.conversations[id].messages|
  {
    var c := s.conversations[id];
    Put(s, id, Claimed(c, index, session, reply, now))
      .(workers := s.workers[session := Worker(host, reply)],
        homes := s.homes[session := id],
        issued := s.issued[session := None][reply := Some(Slot(id, |c.messages|))],
        starts := s.starts + [Start(c.workspace, SequenceAt(c, index), true)])
  }

  function AfterRefuse(s: Store, id: Id, index: nat, error: string): Store
    requires id in s.conversations && index < |s.conversations[id].messages|
  {
    var c := s.conversations[id];
    Put(s, id, NotStarted(c, index, error)).(starts := s.starts + [Start(c.workspace, SequenceAt(c, index), false)])
  }

  ghost predicate CanReport(s: Store, session: Id) {
    session in s.workers && Homed(s.conversations, s.homes, session)
  }

  function AfterProgress(s: Store, session: Id, update: Option<string>): Store
    requires session in s.workers && session in s.homes && s.homes[session] in s.conversations
  {
    var id := s.homes[session];
    Put(s, id, Progressed(s.conversations[id], s.workers[session].reply, session, update))
  }

  function AfterFinish(s: Store, session: Id, output: Option<Output>, interrupted: bool, failure: Option<string>): Store
    requires session in s.workers && session in s.homes && s.homes[session] in s.conversations
  {
    var id := s.homes[session];
    var c' := Finished(s.conversations[id], s.workers[session].reply, session, output, Outcome(interrupted, failure), failure);
    Put(s, id, c').(workers := s.workers - {session}, finished := s.finished + {session})
  }

  function Survivors(workers: map<Id, Worker>, host: nat): map<Id, Worker> {
    map x | x in workers && workers[x].host != host :: workers[x]
  }

  ghost predicate Enabled(s: Store, step: Step) {
    match step
    case Create(c) => c.id !in s.conversations && c.messages == [] && c.mutations == [] && c.active.None?
    case Reserve => true
    case Enqueue(id, message, request, _, _) => CanEnqueue(s, id, message, request)
    case Change(id, _, _, _, _) => id in s.conversations
    case Recover(id) => CanRecover(s, id)
    case Claim(_, id, index, session, reply, _) => CanClaim(s, id, index, session, reply)
    case Refuse(id, index, _) => Eligible(s.conversations, id, index)
    case Progress(session, _) => CanReport(s, session)
    case Finish(session, _, _, _) => CanReport(s, session)
    case Spawn(session) => session in s.workers
    case Exit(session) => session in s.children
    case Lose(session) => session in s.workers
    case HostDeath(_) => true
    case Borrow(key) => LeaseFree(s, key)
    case Return(key) => key in s.others
  }

  ghost function Apply(s: Store, step: Step): Store
    requires Enabled(s, step)
  {
    match step
    case Create(c) => Put(s, c.id, c)
    case Reserve => s.(counter := s.counter + 1)
    case Enqueue(id, message, request, body, now) => AfterEnqueue(s, id, message, request, body, now)
    case Change(id, message, request, expected, edit) =>
      AfterChange(s, id, Mutate(s.conversations[id], message, request, expected, edit))
    case Recover(id) => Put(s, id, Recovered(s.conversations[id]))
    case Claim(host, id, index, session, reply, now) => AfterClaim(s, host, id, index, session, reply, now)
    case Refuse(id, index, error) => AfterRefuse(s, id, index, error)
    case Progress(session, update) => AfterProgress(s, session, update)
    case Finish(session, output, interrupted, failure) => AfterFinish(s, session, output, interrupted, failure)
    case Spawn(session) => s.(children := s.children + {session})
    case Exit(session) => s.(children := s.children - {session})
    case Lose(session) => s.(workers := s.workers - {session})
    case HostDeath(host) => s.(workers := Survivors(s.workers, host))
    case Borrow(key) => s.(others := s.others + {key})
    case Return(key) => s.(others := s.others - {key})
  }

  // ---------------------------------------------------------------- the invariant

  ghost predicate ConversationsSound(cs: Saved) {
    forall id :: id in cs ==> cs[id].id == id && Sound(cs[id])
  }

  /** Sequences are issued once, never above the counter. */
  ghost predicate TicketsUnique(cs: Saved, tickets: map<nat, Slot>, counter: nat) {
    && (forall id, i :: id in cs && 0 <= i < |cs[id].messages| && cs[id].messages[i].sequence.Some?
          ==> var q := cs[id].messages[i].sequence.value; q in tickets && tickets[q] == Slot(id, i))
    && (forall q :: q in tickets ==> q <= counter)
  }

  ghost predicate SessionsHomed(cs: Saved, homes: map<Id, Id>, issued: Names) {
    && (forall x :: x in homes ==> homes[x] in cs && x in issued)
    && (forall id, i, x :: id in cs && 0 <= i < |cs[id].messages| && cs[id].messages[i].session == Some(x)
          ==> x in homes && homes[x] == id)
  }

  /** Message ids are unique across all conversations. */
  ghost predicate IdsIssued(cs: Saved, issued: Names) {
    forall id, i :: id in cs && 0 <= i < |cs[id].messages|
      ==> (cs[id].messages[i].id in issued && issued[cs[id].messages[i].id] == Some(Slot(id, i)))
  }

  ghost predicate OneTurnPerWorkspace(cs: Saved) {
    forall a, b :: (a in cs && b in cs && cs[a].active.Some? && cs[b].active.Some? && cs[a].workspace == cs[b].workspace)
                   ==> a == b
  }

  ghost predicate RunsTurn(c: Conversation, session: Id, reply: Id) {
    c.active == Some(session) && exists u: nat, a: nat :: TurnAt(c, u, a, session) && c.messages[a].id == reply
  }

  /** A live worker's turn is still the active one: nobody can recover it from under the worker. */
  ghost predicate WorkersOwnTheirTurn(cs: Saved, homes: map<Id, Id>, workers: map<Id, Worker>) {
    forall x :: x in workers ==> Homed(cs, homes, x) && RunsTurn(cs[homes[x]], x, workers[x].reply)
  }

  /** A process that outlives its worker belongs to a turn that is active or that its worker ended. */
  ghost predicate ChildrenAccounted(cs: Saved, homes: map<Id, Id>, children: set<Id>, finished: set<Id>) {
    && (forall x :: x in children ==> Homed(cs, homes, x) && (cs[homes[x]].active == Some(x) || x in finished))
    && (forall x :: x in finished ==> Homed(cs, homes, x) && cs[homes[x]].active != Some(x))
  }

  ghost predicate LeasesExclusive(cs: Saved, homes: map<Id, Id>, holders: set<Id>, others: set<Key>) {
    && (forall x, y :: (x in holders && y in holders && Homed(cs, homes, x) && Homed(cs, homes, y)
                        && LeaseOf(cs, homes, x) == LeaseOf(cs, homes, y))
                       ==> x == y)
    && (forall x :: x in holders && Homed(cs, homes, x) ==> LeaseOf(cs, homes, x) !in others)
  }

  ghost predicate StartsInOrder(cs: Saved, tickets: map<nat, Slot>, starts: seq<Start>) {
    && (forall i :: 0 <= i < |starts| ==> starts[i].sequence in tickets)
    && (forall i, j :: 0 <= i < j < |starts| && starts[i].workspace == starts[j].workspace
          ==> starts[i].sequence < starts[j].sequence)
    && (forall i, id, k :: 0 <= i < |starts| && id in cs && k in QueuedAt(cs[id]) && cs[id].workspace == starts[i].workspace
          ==> starts[i].sequence < SequenceAt(cs[id], k))
  }

  ghost predicate QueuesBounded(cs: Saved) {
    forall w :: |QueuedIn(cs, w)| <= MAX_QUEUED_PER_WORKSPACE
  }

  ghost predicate Inv(s: Store) {
    && ConversationsSound(s.conversations)
    && TicketsUnique(s.conversations, s.tickets, s.counter)
    && SessionsHomed(s.conversations, s.homes, s.issued)
    && IdsIssued(s.conversations, s.issued)
    && OneTurnPerWorkspace(s.conversations)
    && WorkersOwnTheirTurn(s.conversations, s.homes, s.workers)
    && ChildrenAccounted(s.conversations, s.homes, s.children, s.finished)
    && LeasesExclusive(s.conversations, s.homes, Holders(s), s.others)
    && StartsInOrder(s.conversations, s.tickets, s.starts)
    && QueuesBounded(s.conversations)
  }
}
