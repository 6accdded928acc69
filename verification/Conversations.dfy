/**
 One stored conversation: its messages, the edits that the queue scheduler makes to it,
 and the invariant (Sound) that every edit keeps.
 */
module Conversations {
  import opened Options

  type Id = nat        // a UUID; only equality and order matter
  type Workspace = nat
  type Repository = nat

  const MAX_MESSAGES := 256
  const MAX_TURN_SLOTS := 254
  const MAX_MUTATION_RECEIPTS := 1024
  const HOST_STOPPED := "The host stopped before this turn finished. Review the files before you send a new message."

  datatype Role = User | Assistant | System

  datatype Status = Queued | Cancelled | Pending | Running | Completed | Failed | Interrupted

  datatype Message = Message(
    id: Id,
    request: Option<Id>,
    submitted: Option<string>,
    sequence: Option<nat>,
    position: Option<nat>,
    lastMutation: Option<Id>,
    role: Role,
    body: string,
    status: Status,
    created: int,
    session: Option<Id>,
    error: Option<string>,
    progress: Option<string>,
    diagnostic: Option<string>)

  /** A receipt keeps the digest of (message, expected body, new body); the digest is injective. */
  datatype Receipt = Receipt(request: Id, message: Id, expected: string, body: Option<string>)

  datatype Conversation = Conversation(
    id: Id,
    workspace: Workspace,
    repository: Repository,
    provider: nat,
    workItem: bool,
    messages: seq<Message>,
    active: Option<Id>,
    mutations: seq<Receipt>)

  predicate Live(m: Message) {
    m.status.Pending? || m.status.Running?
  }

  predicate Terminal(m: Message) {
    m.status.Completed? || m.status.Failed? || m.status.Interrupted? || m.status.Cancelled?
  }

  predicate Waiting(m: Message) {
    m.status.Queued?
  }

  /** The scheduler looks only at conversations with an active turn or a queued message. */
  predicate HasWork(c: Conversation) {
    c.active.Some? || exists i :: 0 <= i < |c.messages| && Waiting(c.messages[i])
  }

  function QueuedAt(c: Conversation): set<nat> {
    set i: nat | i < |c.messages| && Waiting(c.messages[i])
  }

  // ---------------------------------------------------------------- the invariant

  ghost predicate UniqueIds(ms: seq<Message>) {
    forall i, j :: 0 <= i < j < |ms| ==> ms[i].id != ms[j].id
  }

  ghost predicate UniqueRequests(ms: seq<Message>) {
    forall i, j :: 0 <= i < j < |ms| && ms[i].role.User? && ms[j].role.User? && ms[i].request.Some?
                   ==> ms[i].request != ms[j].request
  }

  /** Messages from before the queue have no sequence; they come first. */
  predicate Earlier(a: Option<nat>, b: Option<nat>) {
    a.None? || (b.Some? && a.value < b.value)
  }

  ghost predicate SequencesAscend(ms: seq<Message>) {
    forall i, j :: 0 <= i < j < |ms| && ms[i].role.User? && ms[j].role.User?
                   ==> Earlier(ms[i].sequence, ms[j].sequence)
  }

  ghost predicate MessageShape(m: Message) {
    && (m.role.User? ==> !m.status.Pending?)
    && (!m.role.User? ==> m.sequence.None?)
    && (m.status.Queued? ==>
          m.role.User? && m.sequence.Some? && m.session.None? && m.request.Some? && m.submitted.Some?)
  }

  /** The user message at u and the assistant message at a are the two halves of turn `session`. */
  ghost predicate TurnAt(c: Conversation, u: nat, a: nat, session: Id) {
    && u < |c.messages| && a < |c.messages|
    && c.messages[u].role.User? && c.messages[u].status.Running?
    && c.messages[a].role.Assistant? && Live(c.messages[a])
    && c.messages[u].session == Some(session) && c.messages[a].session == Some(session)
    && c.messages[u].request.Some? && c.messages[a].request == c.messages[u].request
    && (forall k :: 0 <= k < |c.messages| && k != u && k != a
          ==> !Live(c.messages[k]) && c.messages[k].session != Some(session))
  }

  ghost predicate TurnShape(c: Conversation) {
    match c.active
    case None => forall k :: 0 <= k < |c.messages| ==> !Live(c.messages[k])
    case Some(session) => exists u: nat, a: nat :: TurnAt(c, u, a, session)
  }

  ghost predicate ReceiptsDistinct(rs: seq<Receipt>) {
    forall i, j :: 0 <= i < j < |rs| ==> rs[i].request != rs[j].request
  }

  ghost predicate Sound(c: Conversation) {
    && UniqueIds(c.messages)
    && UniqueRequests(c.messages)
    && SequencesAscend(c.messages)
    && (forall i :: 0 <= i < |c.messages| ==> MessageShape(c.messages[i]))
    && TurnShape(c)
    && ReceiptsDistinct(c.mutations)
    && |c.mutations| <= MAX_MUTATION_RECEIPTS
    && |c.messages| + |QueuedAt(c)| < MAX_MESSAGES
  }

  // ---------------------------------------------------------------- looking things up

  /** The first message with the id, as `iter().find` returns it. */
  function Find(ms: seq<Message>, id: Id): (r: Option<nat>)
    ensures r.Some? ==> r.value < |ms| && ms[r.value].id == id
    ensures r.Some? ==> forall k :: 0 <= k < r.value ==> ms[k].id != id
    ensures r.None? ==> forall k :: 0 <= k < |ms| ==> ms[k].id != id
  {
    FindFrom(ms, id, 0)
  }

  function FindFrom(ms: seq<Message>, id: Id, from: nat): (r: Option<nat>)
    requires from <= |ms|
    ensures r.Some? ==> from <= r.value < |ms| && ms[r.value].id == id
    ensures r.Some? ==> forall k :: from <= k < r.value ==> ms[k].id != id
    ensures r.None? ==> forall k :: from <= k < |ms| ==> ms[k].id != id
    decreases |ms| - from
  {
    if from == |ms| then None
    else if ms[from].id == id then Some(from)
    else FindFrom(ms, id, from + 1)
  }

  /** The user message that a request id was submitted under. */
  predicate Asked(m: Message, request: Id) {
    m.role.User? && m.request == Some(request)
  }

  function FindRequest(ms: seq<Message>, request: Id, from: nat): (r: Option<nat>)
    requires from <= |ms|
    ensures r.Some? ==> from <= r.value < |ms| && Asked(ms[r.value], request)
    ensures r.None? ==> forall k :: from <= k < |ms| ==> !Asked(ms[k], request)
    decreases |ms| - from
  {
    if from == |ms| then None
    else if Asked(ms[from], request) then Some(from)
    else FindRequest(ms, request, from + 1)
  }

  function FindReceipt(rs: seq<Receipt>, request: Id, from: nat): (r: Option<nat>)
    requires from <= |rs|
    ensures r.Some? ==> from <= r.value < |rs| && rs[r.value].request == request
    ensures r.None? ==> forall k :: from <= k < |rs| ==> rs[k].request != request
    decreases |rs| - from
  {
    if from == |rs| then None
    else if rs[from].request == request then Some(from)
    else FindReceipt(rs, request, from + 1)
  }

  // ---------------------------------------------------------------- edits

  function Interrupt(m: Message): Message {
    if Live(m) then m.(status := Interrupted, error := Some(HOST_STOPPED)) else m
  }

  /** The turn's lease is free, so its host is gone: no live message remains. */
  function Recovered(c: Conversation): Conversation {
    c.(active := None, messages := seq(|c.messages|, i requires 0 <= i < |c.messages| => Interrupt(c.messages[i])))
  }

  function NewRequest(id: Id, request: Id, body: string, sequence: nat, now: int): Message {
    Message(id, Some(request), Some(body), Some(sequence), None, None, User, body, Queued, now, None, None, None, None)
  }

  function Enqueued(c: Conversation, m: Message): Conversation {
    c.(messages := c.messages + [m])
  }

  function NewReply(id: Id, request: Option<Id>, session: Id, now: int): Message {
    Message(id, request, None, None, None, None, Assistant, "", Pending, now, Some(session), None, None, None)
  }

  /** A queued message becomes the running turn and gets its reply slot. */
  function Claimed(c: Conversation, u: nat, session: Id, reply: Id, now: int): Conversation
    requires u < |c.messages|
  {
    var user := c.messages[u].(status := Running, session := Some(session), position := None);
    c.(messages := c.messages[u := user] + [NewReply(reply, user.request, session, now)],
       active := Some(session))
  }

  function NotStarted(c: Conversation, u: nat, error: string): Conversation
    requires u < |c.messages|
  {
    c.(messages := c.messages[u := c.messages[u].(status := Failed, error := Some(error))])
  }

  /** A worker reports progress: only the assistant half of its own active turn changes. */
  function Progressed(c: Conversation, reply: Id, session: Id, update: Option<string>): Conversation {
    if c.active != Some(session) then c
    else
      match Find(c.messages, reply)
      case None => c
      case Some(a) =>
        var m := c.messages[a].(status := Running);
        c.(messages := c.messages[a := if update.Some? then m.(progress := update) else m])
  }

  datatype Output = Output(body: string, progress: string, diagnostic: string)

  predicate Space(c: char) {
    || '\U{9}' <= c <= '\U{D}' || c == ' ' || c == '\U{85}' || c == '\U{A0}' || c == '\U{1680}'
    || '\U{2000}' <= c <= '\U{200A}' || c == '\U{2028}' || c == '\U{2029}' || c == '\U{202F}' || c == '\U{205F}' || c == '\U{3000}'
  }

  /** A text that is nothing but white space is not kept. */
  function Trimmed(text: string): Option<string> {
    if forall i :: 0 <= i < |text| ==> Space(text[i]) then None else Some(text)
  }

  function Outcome(interrupted: bool, error: Option<string>): Status {
    if interrupted then Interrupted else if error.Some? then Failed else Completed
  }

  function FinishReply(m: Message, output: Option<Output>, status: Status, error: Option<string>): Message {
    var filled := if output.Some?
                  then m.(body := output.value.body, progress := Trimmed(output.value.progress), diagnostic := Trimmed(output.value.diagnostic))
                  else m;
    filled.(status := status, error := error)
  }

  function FinishAsk(m: Message, session: Id, status: Status): Message {
    if m.role.User? && m.session == Some(session) then m.(status := status) else m
  }

  function FillReply(ms: seq<Message>, reply: Id, output: Option<Output>, status: Status, error: Option<string>): (r: seq<Message>)
    ensures |r| == |ms|
  {
    match Find(ms, reply)
    case None => ms
    case Some(a) => ms[a := FinishReply(ms[a], output, status, error)]
  }

  function SettleAsks(ms: seq<Message>, session: Id, status: Status): seq<Message> {
    seq(|ms|, i requires 0 <= i < |ms| => FinishAsk(ms[i], session, status))
  }

  function Finished(c: Conversation, reply: Id, session: Id, output: Option<Output>, status: Status, error: Option<string>): Conversation {
    if c.active != Some(session) then c
    else c.(active := None, messages := SettleAsks(FillReply(c.messages, reply, output, status, error), session, status))
  }

  datatype Mutation = Applied(conversation: Conversation) | Replayed | Conflict | Limit

  function FindUser(ms: seq<Message>, id: Id): (r: Option<nat>)
    ensures r.Some? ==> r.value < |ms| && ms[r.value].id == id && ms[r.value].role.User?
    ensures r.None? && UniqueIds(ms) ==> forall k :: 0 <= k < |ms| && ms[k].role.User? ==> ms[k].id != id
  {
    FindUserFrom(ms, id, 0)
  }

  function FindUserFrom(ms: seq<Message>, id: Id, from: nat): (r: Option<nat>)
    requires from <= |ms|
    ensures r.Some? ==> from <= r.value < |ms| && ms[r.value].id == id && ms[r.value].role.User?
    ensures r.None? ==> forall k :: from <= k < |ms| && ms[k].role.User? ==> ms[k].id != id
    decreases |ms| - from
  {
    if from == |ms| then None
    else if ms[from].id == id && ms[from].role.User? then Some(from)
    else FindUserFrom(ms, id, from + 1)
  }

  /** Edit (a new body) or cancel (no body) a message that still waits. */
  function Mutate(c: Conversation, id: Id, request: Id, expected: string, body: Option<string>): Mutation {
    if body.Some? && c.workItem then Conflict
    else
      match FindUser(c.messages, id)
      case None => Conflict
      case Some(u) =>
        match FindReceipt(c.mutations, request, 0)
        case Some(r) =>
          if c.mutations[r] == Receipt(request, id, expected, body) && c.messages[u].lastMutation == Some(request)
          then Replayed else Conflict
        case None =>
          if !Waiting(c.messages[u]) || c.messages[u].body != expected then Conflict
          else if |c.mutations| >= MAX_MUTATION_RECEIPTS then Limit
          else
            var changed := if body.Some? then c.messages[u].(body := body.value)
                           else c.messages[u].(status := Cancelled);
            Applied(c.(messages := c.messages[u := changed.(lastMutation := Some(request), position := None)],
                       mutations := c.mutations + [Receipt(request, id, expected, body)]))
  }

  // ---------------------------------------------------------------- how a conversation may change

  /** The status changes that exist at all; the four terminal ones absorb. */
  predicate Moves(a: Status, b: Status) {
    match a
    case Queued => !b.Pending?
    case Pending => b.Pending? || b.Running? || b.Completed? || b.Failed? || b.Interrupted?
    case Running => b.Running? || b.Completed? || b.Failed? || b.Interrupted?
    case _ => a == b
  }

  predicate Follows(a: Message, b: Message) {
    && a.id == b.id && a.request == b.request && a.submitted == b.submitted
    && a.sequence == b.sequence && a.role == b.role && a.created == b.created
    && (a.session.Some? ==> a.session == b.session)
    && Moves(a.status, b.status)
    && (Terminal(a) ==> a == b)
  }

  /** c' is a later version of c: nothing is dropped or reordered and terminal messages are frozen. */
  ghost predicate Evolves(c: Conversation, c': Conversation) {
    && c.id == c'.id && c.workspace == c'.workspace && c.repository == c'.repository
    && c.provider == c'.provider && c.workItem == c'.workItem
    && |c.messages| <= |c'.messages|
    && (forall i :: 0 <= i < |c.messages| ==> Follows(c.messages[i], c'.messages[i]))
    && c.mutations <= c'.mutations
  }

  lemma EvolvesTransitive(a: Conversation, b: Conversation, c: Conversation)
    requires Evolves(a, b) && Evolves(b, c)
    ensures Evolves(a, c)
  {
    forall i | 0 <= i < |a.messages| ensures Follows(a.messages[i], c.messages[i]) {
      assert Follows(a.messages[i], b.messages[i]) && Follows(b.messages[i], c.messages[i]);
    }
  }
}
