/**
 The ledger of agent sessions: one file that every operation reads, edits and writes back whole. A file
 that holds a record that is not valid, or too many records, cannot be opened again.
 */
module SessionLedger {
  import opened Options

  type Id = nat   // a UUID; 0 is the nil id

  const MAX_RETAINED_SESSIONS := 4096
  const MAX_SESSION_FILE_BYTES := 4 * 1024 * 1024
  const STALE_HEARTBEAT_AFTER_MS := 5 * 60 * 1000

  datatype Status = Launching | HandoffAccepted | Running | Stopping | Completed | Failed | Interrupted

  datatype Reason = LaunchRejected | ProviderFailed | ProcessExited | StaleHeartbeat | LaunchOutcomeUnknown | UserStopped

  datatype Input = Question | Access

  /** A change request or merge request proposal, and whether its text passes the checks for its kind. */
  datatype Proposal = Proposal(text: string, valid: bool)

  datatype Session = Session(
    id: Id,
    workspace: Id,
    status: Status,
    started: int,
    heartbeat: int,
    ended: Option<int>,
    failure: Option<Reason>,
    needsInput: Option<Input>,
    changeRequests: seq<Proposal>,
    links: seq<Proposal>)

  type Ledger = seq<Session>

  predicate Live(s: Session) {
    s.status.Launching? || s.status.Running? || s.status.Stopping?
  }

  // ---------------------------------------------------------------- what a stored record must look like

  predicate ValidProposals(ps: seq<Proposal>) {
    |ps| <= 16 && forall i :: 0 <= i < |ps| ==> ps[i].valid
  }

  predicate ValidSession(s: Session) {
    && s.id != 0 && s.workspace != 0 && s.started >= 0 && s.heartbeat >= s.started
    && (match s.status
        case Launching => s.ended.None? && s.failure.None? && s.needsInput.None?
        case HandoffAccepted => s.ended.Some? && s.failure.None? && s.needsInput.None?
        case Running => s.ended.None? && s.failure.None?
        case Stopping => s.ended.None? && s.failure.None? && s.needsInput.None?
        case Completed => s.ended.Some? && s.failure.None? && s.needsInput.None?
        case Failed => s.ended.Some? && s.failure.Some? && s.needsInput.None?
        case Interrupted => s.ended.Some? && s.failure.Some? && s.needsInput.None?)
    && (s.ended.Some? ==> s.ended.value >= s.heartbeat)
    && ValidProposals(s.changeRequests) && ValidProposals(s.links)
  }

  predicate AllValid(l: Ledger) {
    forall i :: 0 <= i < |l| ==> ValidSession(l[i])
  }

  predicate Readable(l: Ledger) {
    |l| <= MAX_RETAINED_SESSIONS && AllValid(l)
  }

  // ---------------------------------------------------------------- recovery and pruning

  function Unstale(s: Session, now: int): Session {
    if now - s.heartbeat <= STALE_HEARTBEAT_AFTER_MS || !Live(s) then s
    else
      s.(status := Interrupted, ended := Some(now), needsInput := None,
         failure := Some(if s.status.Launching? then LaunchOutcomeUnknown else StaleHeartbeat))
  }

  function Adopted(s: Session, now: int): Session {
    if !Live(s) then s
    else
      s.(status := Interrupted, heartbeat := now, ended := Some(now), needsInput := None,
         failure := Some(if s.status.Launching? then LaunchOutcomeUnknown else ProcessExited))
  }

  function RecoverStale(l: Ledger, now: int): (r: Ledger)
    ensures |r| == |l| && forall i :: 0 <= i < |l| ==> r[i] == Unstale(l[i], now)
  {
    seq(|l|, i requires 0 <= i < |l| => Unstale(l[i], now))
  }

  function RecoverOrphaned(l: Ledger, now: int): (r: Ledger)
    ensures |r| == |l| && forall i :: 0 <= i < |l| ==> r[i] == Adopted(l[i], now)
  {
    seq(|l|, i requires 0 <= i < |l| => Adopted(l[i], now))
  }

  predicate Older(a: Session, b: Session) {
    a.started < b.started || (a.started == b.started && a.id < b.id)
  }

  /** The first of the oldest sessions that are over. */
  function OldestOver(l: Ledger, n: nat): (k: Option<nat>)
    requires n <= |l|
    ensures k.Some? ==> k.value < n && !Live(l[k.value]) && forall i :: 0 <= i < n && !Live(l[i]) ==> !Older(l[i], l[k.value])
    ensures k.None? ==> forall i :: 0 <= i < n ==> Live(l[i])
  {
    if n == 0 then None
    else
      var k := OldestOver(l, n - 1);
      if !Live(l[n - 1]) && (k.None? || Older(l[n - 1], l[k.value])) then Some(n - 1) else k
  }

  function Without(l: Ledger, k: nat): Ledger
    requires k < |l|
  {
    l[..k] + l[k + 1..]
  }

  function Pruned(l: Ledger): Ledger {
    if |l| < MAX_RETAINED_SESSIONS || OldestOver(l, |l|).None? then l else Without(l, OldestOver(l, |l|).value)
  }

  // ---------------------------------------------------------------- operations

  datatype Op =
    | Launch(id: Id, workspace: Id, status: Status)     // begin_launch, or start for one that already runs
    | AcceptHandoff(id: Id)
    | AcceptProcess(id: Id)
    | FailLaunch(id: Id, reason: Reason)
    | Heartbeat(id: Id)
    | SetNeedsInput(id: Id, input: Option<Input>)
    | SetChangeRequests(id: Id, proposals: seq<Proposal>)
    | SetLinks(id: Id, proposals: seq<Proposal>)
    | Finish(id: Id)
    | Fail(id: Id, reason: Reason)
    | Interrupt(id: Id, reason: Reason)
    | RequestStop(id: Id)
    | ListSessions
    | Open

  datatype Refusal = Unavailable | Invalid | NotFound | NotRunning

  function NewSession(id: Id, workspace: Id, status: Status, now: int): Session {
    Session(id, workspace, status, now, now, None, None, None, [], [])
  }

  function FindSession(l: Ledger, id: Id, from: nat): (k: Option<nat>)
    requires from <= |l|
    ensures k.Some? ==> from <= k.value < |l| && l[k.value].id == id
    ensures k.None? ==> forall i :: from <= i < |l| ==> l[i].id != id
    decreases |l| - from
  {
    if from == |l| then None else if l[from].id == id then Some(from) else FindSession(l, id, from + 1)
  }

  /** Which sessions an operation may change. */
  predicate Applies(op: Op, s: Session) {
    match op
    case AcceptHandoff(_) => s.status.Launching?
    case AcceptProcess(_) => s.status.Launching?
    case FailLaunch(_, _) => s.status.Launching?
    case SetNeedsInput(_, _) => s.status.Running?
    case RequestStop(_) => s.status.Launching? || s.status.Running?
    case _ => s.status.Running? || s.status.Stopping?
  }

  predicate Edits(op: Op) {
    !op.Launch? && !op.ListSessions? && !op.Open?
  }

  function Ended(s: Session, status: Status, failure: Option<Reason>, now: int): Session {
    s.(heartbeat := now, status := status, ended := Some(now), failure := failure, needsInput := None)
  }

  function Edited(op: Op, s: Session, now: int): Session
    requires Edits(op)
  {
    match op
    case AcceptHandoff(_) => Ended(s, HandoffAccepted, None, now)
    case AcceptProcess(_) => s.(heartbeat := now, status := Running, ended := None, failure := None)
    case FailLaunch(_, reason) => Ended(s, Failed, Some(reason), now)
    case Heartbeat(_) => s.(heartbeat := now)
    case SetNeedsInput(_, input) => s.(heartbeat := now, needsInput := input)
    case SetChangeRequests(_, proposals) => s.(heartbeat := now, changeRequests := proposals)
    case SetLinks(_, proposals) => s.(links := proposals)
    case Finish(_) => Ended(s, Completed, None, now)
    case Fail(_, reason) => Ended(s, Failed, Some(reason), now)
    case Interrupt(_, reason) => Ended(s, Interrupted, Some(reason), now)
    case RequestStop(_) => s.(status := Stopping, needsInput := None, heartbeat := now)
  }

  /** request_stop and set_mr_link_proposals leave stale sessions alone, and write nothing when they refuse. */
  predicate RecoversFirst(op: Op) {
    !op.RequestStop? && !op.SetLinks?
  }

  /** What an operation makes of the ledger it read: the ledger to write, if any, and what it then answers. */
  datatype Plan = Plan(write: Option<Ledger>, refusal: Option<Refusal>)

  function PlanOf(l: Ledger, op: Op, now: int): Plan {
    if !Readable(l) then Plan(None, Some(Invalid))
    else
      match op
      case Launch(id, workspace, status) =>
        Plan(Some(Pruned(RecoverStale(l, now)) + [NewSession(id, workspace, status, now)]), None)
      case ListSessions => Plan(if RecoverStale(l, now) != l then Some(RecoverStale(l, now)) else None, None)
      case Open => Plan(if RecoverOrphaned(l, now) != l then Some(RecoverOrphaned(l, now)) else None, None)
      case _ =>
        if (op.SetChangeRequests? || op.SetLinks?) && !ValidProposals(op.proposals) then Plan(None, Some(Invalid))
        else
          var current := if RecoversFirst(op) then RecoverStale(l, now) else l;
          var k := FindSession(current, op.id, 0);
          if k.None? then Plan(None, Some(NotFound))
          else if !Applies(op, current[k.value]) then Plan(if RecoversFirst(op) then Some(current) else None, Some(NotRunning))
          else Plan(Some(current[k.value := Edited(op, current[k.value], now)]), None)
  }

  /** The ledger after an operation whose write succeeds. */
  function After(l: Ledger, op: Op, now: int): Ledger {
    var plan := PlanOf(l, op, now);
    if plan.write.Some? then plan.write.value else l
  }

  // ---------------------------------------------------------------- what an operation leaves in the ledger, field by field

  /** Nothing has been heard of it for more than five minutes, and it is not over. */
  predicate IsStale(s: Session, now: int) {
    (s.status == Launching || s.status == Running || s.status == Stopping) && now - s.heartbeat > 300_000
  }

  predicate SameRecord(a: Session, b: Session) {
    b.id == a.id && b.workspace == a.workspace && b.started == a.started
  }

  /** A session that is not over is interrupted, and says why; anything else stays as it is. */
  ghost predicate GivenUp(a: Session, b: Session, when: bool, heartbeat: int, lost: Reason, now: int) {
    if !when then b == a
    else
      && SameRecord(a, b) && b.status == Interrupted && b.ended == Some(now) && b.needsInput.None? && b.heartbeat == heartbeat
      && b.failure == Some(if a.status == Launching then LaunchOutcomeUnknown else lost)
      && b.changeRequests == a.changeRequests && b.links == a.links
  }

  ghost predicate StaleGivenUp(a: Session, b: Session, now: int) {
    GivenUp(a, b, IsStale(a, now), a.heartbeat, StaleHeartbeat, now)
  }

  ghost predicate AllStaleGivenUp(l: Ledger, l': Ledger, now: int) {
    |l'| == |l| && forall i :: 0 <= i < |l| ==> StaleGivenUp(l[i], l'[i], now)
  }

  /** On opening, whatever is not over has lost its process. */
  ghost predicate AllOrphansGivenUp(l: Ledger, l': Ledger, now: int) {
    |l'| == |l| && forall i :: 0 <= i < |l| ==>
      GivenUp(l[i], l'[i], l[i].status == Launching || l[i].status == Running || l[i].status == Stopping, now, ProcessExited, now)
  }

  /** The statuses in which the operation may be done to a session. */
  predicate Suits(op: Op, status: Status) {
    match op
    case AcceptHandoff(_) => status == Launching
    case AcceptProcess(_) => status == Launching
    case FailLaunch(_, _) => status == Launching
    case SetNeedsInput(_, _) => status == Running
    case RequestStop(_) => status == Launching || status == Running
    case _ => status == Running || status == Stopping
  }

  /** What the operation does to its session: each field is as the operation says or as it was. */
  ghost predicate Does(op: Op, a: Session, b: Session, now: int) {
    && SameRecord(a, b)
    && (match op
        case AcceptHandoff(_) => b.status == HandoffAccepted && b.ended == Some(now) && b.failure.None? && b.needsInput.None?
        case AcceptProcess(_) => b.status == Running && b.ended.None? && b.failure.None? && b.needsInput == a.needsInput
        case FailLaunch(_, reason) => b.status == Failed && b.ended == Some(now) && b.failure == Some(reason) && b.needsInput.None?
        case Finish(_) => b.status == Completed && b.ended == Some(now) && b.failure.None? && b.needsInput.None?
        case Fail(_, reason) => b.status == Failed && b.ended == Some(now) && b.failure == Some(reason) && b.needsInput.None?
        case Interrupt(_, reason) => b.status == Interrupted && b.ended == Some(now) && b.failure == Some(reason) && b.needsInput.None?
        case RequestStop(_) => b.status == Stopping && b.ended == a.ended && b.failure == a.failure && b.needsInput.None?
        case SetNeedsInput(_, input) => b.status == a.status && b.ended == a.ended && b.failure == a.failure && b.needsInput == input
        case _ => b.status == a.status && b.ended == a.ended && b.failure == a.failure && b.needsInput == a.needsInput)
    && b.heartbeat == (if op.SetLinks? then a.heartbeat else now)
    && b.changeRequests == (if op.SetChangeRequests? then op.proposals else a.changeRequests)
    && b.links == (if op.SetLinks? then op.proposals else a.links)
  }

  /** A stop request and link proposals leave stale sessions alone. */
  predicate GivesUpStaleFirst(op: Op) {
    !op.RequestStop? && !op.SetLinks?
  }

  predicate IsSession(l: Ledger, id: Id, k: nat) {
    k < |l| && l[k].id == id && forall i :: 0 <= i < k ==> l[i].id != id
  }

  /** The session is there, in a status that suits the operation, and is not given up as stale before it. */
  ghost predicate CanDo(l: Ledger, op: Op, now: int) {
    && Readable(l)
    && (Edits(op) ==>
          && (op.SetChangeRequests? || op.SetLinks? ==> ValidProposals(op.proposals))
          && exists k: nat :: IsSession(l, op.id, k) && Suits(op, l[k].status) && (GivesUpStaleFirst(op) ==> !IsStale(l[k], now)))
  }

  /** The new session of a launch. */
  ghost predicate IsLaunched(op: Op, s: Session, now: int)
    requires op.Launch?
  {
    && s.id == op.id && s.workspace == op.workspace && s.status == op.status && s.started == now && s.heartbeat == now
    && s.ended.None? && s.failure.None? && s.needsInput.None? && s.changeRequests == [] && s.links == []
  }

  predicate IsOver(s: Session) {
    s.status != Launching && s.status != Running && s.status != Stopping
  }

  /** The first of the oldest of those that are over, by start and then by id. */
  ghost predicate IsOldestOver(l: Ledger, k: nat) {
    && k < |l| && IsOver(l[k])
    && forall i :: 0 <= i < |l| && i != k && IsOver(l[i]) ==>
         || l[k].started < l[i].started
         || (l[k].started == l[i].started && (l[k].id < l[i].id || (l[k].id == l[i].id && k < i)))
  }

  /** The ledger as the operation, done, leaves it. */
  ghost predicate IsDone(l: Ledger, op: Op, now: int, l': Ledger) {
    match op
    case Launch(_, _, _) =>
      && |l'| > 0 && IsLaunched(op, l'[|l'| - 1], now)
      && exists current :: AllStaleGivenUp(l, current, now) && MadeRoom(current, l'[..|l'| - 1])
    case ListSessions => AllStaleGivenUp(l, l', now)
    case Open => AllOrphansGivenUp(l, l', now)
    case _ =>
      && |l'| == |l|
      && exists k: nat :: IsSession(l, op.id, k) && Does(op, l[k], l'[k], now)
           && forall i :: 0 <= i < |l| && i != k ==> if GivesUpStaleFirst(op) then StaleGivenUp(l[i], l'[i], now) else l'[i] == l[i]
  }

  /** A full ledger loses the oldest session that is over, if there is one. */
  ghost predicate MadeRoom(l: Ledger, l': Ledger) {
    if |l| >= 4096 && exists k: nat :: IsOldestOver(l, k)
    then exists k: nat :: IsOldestOver(l, k) && l' == l[..k] + l[k + 1..]
    else l' == l
  }

  lemma StaleIsGivenUp(l: Ledger, now: int)
    ensures AllStaleGivenUp(l, RecoverStale(l, now), now) && AllOrphansGivenUp(l, RecoverOrphaned(l, now), now)
    ensures forall l' :: AllStaleGivenUp(l, l', now) ==> l' == RecoverStale(l, now)
    ensures forall l' :: AllOrphansGivenUp(l, l', now) ==> l' == RecoverOrphaned(l, now)
  {
  }

  lemma EditedDoes(op: Op, s: Session, now: int)
    requires Edits(op)
    ensures Does(op, s, Edited(op, s, now), now) && forall b :: Does(op, s, b, now) ==> b == Edited(op, s, now)
    ensures Applies(op, s) <==> Suits(op, s.status)
  {
  }

  lemma FoundIsSession(l: Ledger, id: Id)
    ensures var k := FindSession(l, id, 0);
            && (k.Some? ==> IsSession(l, id, k.value)) && (k.None? ==> forall i :: 0 <= i < |l| ==> l[i].id != id)
            && forall i: nat :: IsSession(l, id, i) ==> k == Some(i)
  {
    FoundIsFirst(l, id, 0);
  }

  lemma FoundIsFirst(l: Ledger, id: Id, from: nat)
    requires from <= |l|
    ensures var k := FindSession(l, id, from); k.Some? ==> forall i :: from <= i < k.value ==> l[i].id != id
    decreases |l| - from
  {
    if from < |l| { FoundIsFirst(l, id, from + 1); }
  }

  /** A ledger that cannot be read, or proposals that do not pass. */
  predicate IsInvalid(l: Ledger, op: Op) {
    !Readable(l) || ((op.SetChangeRequests? || op.SetLinks?) && !ValidProposals(op.proposals))
  }

  predicate IsNotFound(l: Ledger, op: Op) {
    !IsInvalid(l, op) && Edits(op) && forall i :: 0 <= i < |l| ==> l[i].id != op.id
  }

  /** The ledger that the operation writes when it is done. */
  lemma DoneExactly(l: Ledger, op: Op, now: int)
    ensures var plan := PlanOf(l, op, now);
            && (plan.refusal.None? <==> CanDo(l, op, now))
            && (plan.refusal.None? ==> IsDone(l, op, now, After(l, op, now)) && forall l' :: IsDone(l, op, now, l') ==> l' == After(l, op, now))
            && (plan.refusal.None? && plan.write.None? ==> (op.ListSessions? || op.Open?) && IsDone(l, op, now, l))
            && (plan.refusal.None? && plan.write.Some? && (op.ListSessions? || op.Open?) ==> !IsDone(l, op, now, l))
            && (plan.refusal.Some? && plan.write.Some? ==> AllStaleGivenUp(l, plan.write.value, now) && plan.refusal == Some(NotRunning))
            && (plan.refusal == Some(Invalid) <==> IsInvalid(l, op)) && (plan.refusal == Some(NotFound) <==> IsNotFound(l, op))
            && plan.refusal != Some(Unavailable) && (plan.refusal == Some(NotRunning) && GivesUpStaleFirst(op) ==> plan.write.Some?)
            && (forall l' :: AllStaleGivenUp(l, l', now) ==> l' == RecoverStale(l, now))
            && (plan.refusal.Some? && plan.write.Some? ==> GivesUpStaleFirst(op))
  {
    hide AllStaleGivenUp, AllOrphansGivenUp, IsSession, Does, Suits, Edited, Applies, RecoverStale, RecoverOrphaned, MadeRoom, Pruned, IsLaunched;
    StaleIsGivenUp(l, now);
    if op.Launch? {
      if Readable(l) { LaunchDone(l, op, now); }
    } else if Edits(op) {
      EditDone(l, op, now);
    }
  }

  lemma LaunchDone(l: Ledger, op: Op, now: int)
    requires op.Launch? && Readable(l)
    ensures IsDone(l, op, now, After(l, op, now)) && forall l' :: IsDone(l, op, now, l') ==> l' == After(l, op, now)
  {
    hide AllStaleGivenUp, MadeRoom, Pruned, RecoverStale;
    StaleIsGivenUp(l, now);
    var current := RecoverStale(l, now);
    PrunedMadeRoom(current);
    var r := After(l, op, now);
    assert r[..|r| - 1] == Pruned(current);
    forall l' | IsDone(l, op, now, l') ensures l' == r {
      assert l'[..|l'| - 1] == Pruned(current);
      assert l'[|l'| - 1] == r[|r| - 1];
      assert l' == l'[..|l'| - 1] + [l'[|l'| - 1]];
    }
  }

  lemma PrunedMadeRoom(l: Ledger)
    ensures MadeRoom(l, Pruned(l)) && forall l' :: MadeRoom(l, l') ==> l' == Pruned(l)
  {
    hide IsOldestOver, OldestOver, IsOver, Live;
    OldestIsOldest(l);
  }

  lemma OldestIsOldest(l: Ledger)
    ensures var k := OldestOver(l, |l|);
            && (k.Some? ==> IsOldestOver(l, k.value))
            && forall i: nat :: IsOldestOver(l, i) ==> k == Some(i)
  {
    FirstOfTheOldest(l, |l|);
  }

  lemma {:induction false} FirstOfTheOldest(l: Ledger, n: nat)
    requires n <= |l|
    ensures var k := OldestOver(l, n); k.Some? ==> forall i :: 0 <= i < k.value && !Live(l[i]) ==> Older(l[k.value], l[i])
  {
    if n > 0 { FirstOfTheOldest(l, n - 1); }
  }

  /** Where the plan of an edit leads, in terms of the ledger as it was read. */
  lemma EditPlan(l: Ledger, op: Op, now: int)
    requires Edits(op)
    ensures var plan, k := PlanOf(l, op, now), FindSession(l, op.id, 0);
            if IsInvalid(l, op) then plan == Plan(None, Some(Invalid))
            else if k.None? then plan == Plan(None, Some(NotFound))
            else if Suits(op, l[k.value].status) && (GivesUpStaleFirst(op) ==> !IsStale(l[k.value], now)) then
              plan == Plan(Some((if GivesUpStaleFirst(op) then RecoverStale(l, now) else l)[k.value := Edited(op, l[k.value], now)]), None)
            else plan == Plan(if GivesUpStaleFirst(op) then Some(RecoverStale(l, now)) else None, Some(NotRunning))
  {
    hide Suits, Edited, Applies, RecoverStale, Readable, IsStale, ValidProposals;
    SameIds(l, op.id, now);
    var k := FindSession(l, op.id, 0);
    if k.Some? { SuitsNow(op, l, k.value, now); }
  }

  lemma EditDone(l: Ledger, op: Op, now: int)
    requires Edits(op)
    ensures var plan := PlanOf(l, op, now);
            && (plan.refusal.None? <==> CanDo(l, op, now))
            && (plan.refusal.None? ==> plan.write.Some? && IsDone(l, op, now, After(l, op, now))
                                       && forall l' :: IsDone(l, op, now, l') ==> l' == After(l, op, now))
            && (plan.refusal.Some? && plan.write.Some? ==> AllStaleGivenUp(l, plan.write.value, now) && plan.refusal == Some(NotRunning))
            && (plan.refusal == Some(Invalid) <==> IsInvalid(l, op)) && (plan.refusal == Some(NotFound) <==> IsNotFound(l, op))
            && plan.refusal != Some(Unavailable) && (plan.refusal == Some(NotRunning) && GivesUpStaleFirst(op) ==> plan.write.Some?)
            && (plan.refusal.Some? && plan.write.Some? ==> GivesUpStaleFirst(op))
  {
    hide AllStaleGivenUp, IsSession, Suits, Edited, RecoverStale, Readable, IsStale, IsDone, ValidProposals, PlanOf, GivesUpStaleFirst;
    StaleIsGivenUp(l, now);
    FoundIsSession(l, op.id);
    EditPlan(l, op, now);
    var k := FindSession(l, op.id, 0);
    if k.Some? && (GivesUpStaleFirst(op) ==> !IsStale(l[k.value], now)) {
      EditIsDone(l, op, now, k.value);
    }
  }

  lemma SuitsNow(op: Op, l: Ledger, k: nat, now: int)
    requires Edits(op) && k < |l|
    ensures var current := if GivesUpStaleFirst(op) then RecoverStale(l, now) else l;
            && (Applies(op, current[k]) <==> Suits(op, l[k].status) && (GivesUpStaleFirst(op) ==> !IsStale(l[k], now)))
            && (!GivesUpStaleFirst(op) || !IsStale(l[k], now) ==> current[k] == l[k])
  {
  }

  lemma EditIsDone(l: Ledger, op: Op, now: int, k: nat)
    requires Edits(op) && k < |l| && IsSession(l, op.id, k) && (GivesUpStaleFirst(op) ==> !IsStale(l[k], now))
    ensures var current := if GivesUpStaleFirst(op) then RecoverStale(l, now) else l;
            var l' := current[k := Edited(op, l[k], now)];
            IsDone(l, op, now, l') && forall x :: IsDone(l, op, now, x) ==> x == l'
  {
    hide Edited, Does, IsSession, IsStale;
    var current := if GivesUpStaleFirst(op) then RecoverStale(l, now) else l;
    var l' := current[k := Edited(op, l[k], now)];
    EditedDoes(op, l[k], now);
    FoundIsSession(l, op.id);
    EachGivenUp(l, now);
    hide GivenUp;
    forall x | IsDone(l, op, now, x) ensures x == l' {
      forall i | 0 <= i < |l| ensures x[i] == l'[i] {
      }
    }
  }

  lemma EachGivenUp(l: Ledger, now: int)
    ensures forall i, b :: 0 <= i < |l| ==> (StaleGivenUp(l[i], b, now) <==> b == RecoverStale(l, now)[i])
  {
  }

  lemma SameIds(l: Ledger, id: Id, now: int)
    ensures FindSession(RecoverStale(l, now), id, 0) == FindSession(l, id, 0)
  {
    FoundIsSession(l, id);
    FoundIsSession(RecoverStale(l, now), id);
  }

  class AgentSessionStore {
    const size: Ledger -> nat     // the length of the serialized file
    var file: Ledger

    constructor (size: Ledger -> nat)
      ensures file == [] && this.size == size
    {
      this.size, file := size, [];
    }

    /** Atomic replacement; it may fail, and then the old file stays. */
    method WriteLocked(list: Ledger, io: bool) returns (refusal: Option<Refusal>)
      modifies this
      ensures refusal == WriteRefusal(size, list, io)
      ensures file == if refusal.None? then list else old(file)
    {
      if size(list) > MAX_SESSION_FILE_BYTES { return Some(Invalid); }
      if !io { return Some(Unavailable); }
      file := list;
      refusal := None;
    }

    method RecoverStaleSessions(l: Ledger, now: int) returns (r: Ledger, changed: bool)
      ensures r == RecoverStale(l, now) && (changed <==> r != l)
    {
      r, changed := l, false;
      var i := 0;
      while i < |r|
        invariant i <= |r| == |l|
        invariant forall k :: 0 <= k < i ==> r[k] == Unstale(l[k], now)
        invariant forall k :: i <= k < |l| ==> r[k] == l[k]
        invariant changed <==> exists k :: 0 <= k < i && r[k] != l[k]
      {
        var s := r[i];
        if now - s.heartbeat > STALE_HEARTBEAT_AFTER_MS {
          match s.status {
            case Launching =>
              r := r[i := s.(status := Interrupted, ended := Some(now), failure := Some(LaunchOutcomeUnknown), needsInput := None)];
              changed := true;
            case Running | Stopping =>
              r := r[i := s.(status := Interrupted, ended := Some(now), failure := Some(StaleHeartbeat), needsInput := None)];
              changed := true;
            case _ =>
          }
        }
        i := i + 1;
      }
      assert r == RecoverStale(l, now);
    }

    method RecoverOrphanedSessions(l: Ledger, now: int) returns (r: Ledger, changed: bool)
      ensures r == RecoverOrphaned(l, now) && (changed <==> r != l)
    {
      r, changed := l, false;
      var i := 0;
      while i < |r|
        invariant i <= |r| == |l|
        invariant forall k :: 0 <= k < i ==> r[k] == Adopted(l[k], now)
        invariant forall k :: i <= k < |l| ==> r[k] == l[k]
        invariant changed <==> exists k :: 0 <= k < i && r[k] != l[k]
      {
        var s, failure := r[i], None;
        match s.status {
          case Launching => failure := Some(LaunchOutcomeUnknown);
          case Running | Stopping => failure := Some(ProcessExited);
          case _ =>
        }
        if failure.Some? {
          r := r[i := s.(status := Interrupted, heartbeat := now, ended := Some(now), failure := failure, needsInput := None)];
          changed := true;
        }
        i := i + 1;
      }
      assert r == RecoverOrphaned(l, now);
    }

    method PruneTerminalSessions(l: Ledger) returns (r: Ledger)
      ensures r == Pruned(l)
    {
      hide Older, Live, OldestOver;
      if |l| < MAX_RETAINED_SESSIONS { return l; }
      var oldest := FindOldestOver(l);
      r := if oldest.Some? then l[..oldest.value] + l[oldest.value + 1..] else l;
    }

    method FindOldestOver(l: Ledger) returns (oldest: Option<nat>)
      ensures oldest == OldestOver(l, |l|)
    {
      hide Older, Live;
      oldest := None;
      var i := 0;
      while i < |l|
        invariant i <= |l| && oldest == OldestOver(l, i)
      {
        if !Live(l[i]) && (oldest.None? || Older(l[i], l[oldest.value])) {
          oldest := Some(i);
        }
        i := i + 1;
      }
    }

    /**
     Any operation: what it answers and what the file is then, whether or not the write succeeds. It succeeds if and only
     if it can be done to the session as it stands and its ledger is small enough and is written, unless there is nothing
     to write; then the ledger is exactly the operation's. When it refuses, at most stale sessions have been given up.
     */
    method Perform(op: Op, now: int, io: bool) returns (refusal: Option<Refusal>)
      modifies this
      ensures refusal.None? <==>
                && CanDo(old(file), op, now)
                && (|| ((op.ListSessions? || op.Open?) && IsDone(old(file), op, now, old(file)))
                    || (io && exists l' :: IsDone(old(file), op, now, l') && size(l') <= MAX_SESSION_FILE_BYTES))
      ensures refusal.None? ==> IsDone(old(file), op, now, file)
      ensures refusal.Some? ==> file == old(file) || (refusal == Some(NotRunning) && AllStaleGivenUp(old(file), file, now))
      ensures refusal == Some(NotFound) <==> IsNotFound(old(file), op)
      ensures IsInvalid(old(file), op) ==> refusal == Some(Invalid)
      ensures refusal == Some(NotRunning) <==>
                && !CanDo(old(file), op, now) && !IsInvalid(old(file), op) && !IsNotFound(old(file), op)
                && (!GivesUpStaleFirst(op) || (io && exists l' :: AllStaleGivenUp(old(file), l', now) && size(l') <= MAX_SESSION_FILE_BYTES))
      ensures var plan := PlanOf(old(file), op, now);
              var failed := if plan.write.Some? then WriteRefusal(size, plan.write.value, io) else None;
              && refusal == (if failed.Some? then failed else plan.refusal)
              && file == (if plan.write.Some? && failed.None? then plan.write.value else old(file))
    {
      hide Pruned, Edited, Applies, RecoverStale, RecoverOrphaned, CanDo, IsDone, AllStaleGivenUp, IsInvalid, IsNotFound;
      DoneExactly(file, op, now);
      if !Readable(file) { return Some(Invalid); }
      if op.Launch? {
        var list, _ := RecoverStaleSessions(file, now);
        list := PruneTerminalSessions(list);
        refusal := WriteLocked(list + [NewSession(op.id, op.workspace, op.status, now)], io);
      } else if op.ListSessions? {
        var list, changed := RecoverStaleSessions(file, now);
        refusal := None;
        if changed { refusal := WriteLocked(list, io); }
      } else if op.Open? {
        var list, changed := RecoverOrphanedSessions(file, now);
        refusal := None;
        if changed { refusal := WriteLocked(list, io); }
      } else {
        refusal := EditSession(op, now, io);
      }
    }

    method EditSession(op: Op, now: int, io: bool) returns (refusal: Option<Refusal>)
      requires Edits(op) && Readable(file)
      modifies this
      ensures var plan := PlanOf(old(file), op, now);
              var failed := if plan.write.Some? then WriteRefusal(size, plan.write.value, io) else None;
              && refusal == (if failed.Some? then failed else plan.refusal)
              && file == (if plan.write.Some? && failed.None? then plan.write.value else old(file))
    {
      hide Pruned, Edited, Applies, RecoverStale, RecoverOrphaned;
      if (op.SetChangeRequests? || op.SetLinks?) && !ValidProposals(op.proposals) { return Some(Invalid); }
      var list := file;
      if RecoversFirst(op) {
        var recovered, _ := RecoverStaleSessions(file, now);
        list := recovered;
      }
      var k := FindSession(list, op.id, 0);
      if k.None? { return Some(NotFound); }
      var s := list[k.value];
      if !Applies(op, s) {
        refusal := None;
        if RecoversFirst(op) { refusal := WriteLocked(list, io); }
        if refusal.None? { refusal := Some(NotRunning); }
        return;
      }
      refusal := WriteLocked(list[k.value := Edited(op, s, now)], io);
    }
  }

  function WriteRefusal(size: Ledger -> nat, list: Ledger, io: bool): Option<Refusal> {
    if size(list) > MAX_SESSION_FILE_BYTES then Some(Invalid) else if !io then Some(Unavailable) else None
  }

  // ---------------------------------------------------------------- when the ledger stays readable

  /** A launch finds room if the ledger is not full, or if some session in it is over or has gone stale. */
  predicate HasRoom(l: Ledger, now: int) {
    |l| < MAX_RETAINED_SESSIONS || exists i :: 0 <= i < |l| && !Live(Unstale(l[i], now))
  }

  predicate TouchedHasStarted(l: Ledger, op: Op, now: int)
    requires Edits(op)
  {
    var current := if RecoversFirst(op) then RecoverStale(l, now) else l;
    var k := FindSession(current, op.id, 0);
    k.Some? && Applies(op, current[k.value]) ==> now >= current[k.value].started
  }

  /** The clock has not gone back before the start of a session that the operation stamps with the time. */
  predicate ClockIsPast(l: Ledger, op: Op, now: int) {
    match op
    case Launch(id, workspace, status) => now >= 0 && id != 0 && workspace != 0
    case ListSessions => true
    case SetLinks(_, _) => true
    case Open => forall i :: 0 <= i < |l| && Live(l[i]) ==> now >= l[i].started
    case SetChangeRequests(_, proposals) => ValidProposals(proposals) ==> TouchedHasStarted(l, op, now)
    case _ => TouchedHasStarted(l, op, now)
  }

  predicate StartsLive(op: Op) {
    op.Launch? ==> op.status.Launching? || op.status.Running?
  }

  lemma UnstaleStaysValid(s: Session, now: int)
    requires ValidSession(s)
    ensures ValidSession(Unstale(s, now))
  {
  }

  lemma AdoptedValidity(s: Session, now: int)
    requires ValidSession(s)
    ensures ValidSession(Adopted(s, now)) <==> (Live(s) ==> now >= s.started)
  {
  }

  lemma EditedValidity(op: Op, s: Session, now: int)
    requires ValidSession(s) && Edits(op) && Applies(op, s)
    requires op.SetChangeRequests? || op.SetLinks? ==> ValidProposals(op.proposals)
    ensures ValidSession(Edited(op, s, now)) <==> (op.SetLinks? || now >= s.started)
  {
  }

  lemma RecoveredIsReadable(l: Ledger, now: int)
    requires Readable(l)
    ensures Readable(RecoverStale(l, now))
  {
    hide ValidSession, Unstale;
    forall i | 0 <= i < |l| ensures ValidSession(RecoverStale(l, now)[i]) {
      UnstaleStaysValid(l[i], now);
    }
  }

  lemma PrunedSize(l: Ledger)
    requires |l| <= MAX_RETAINED_SESSIONS
    ensures |Pruned(l)| < MAX_RETAINED_SESSIONS <==> |l| < MAX_RETAINED_SESSIONS || exists i :: 0 <= i < |l| && !Live(l[i])
    ensures forall i :: 0 <= i < |Pruned(l)| ==> Pruned(l)[i] in l
  {
  }

  /**
   An operation on a readable ledger leaves it readable exactly if the clock has not gone back before the
   start of a session that it touches and, for a launch, if there is room. Nothing else can break it.
   */
  lemma StaysReadable(l: Ledger, op: Op, now: int)
    requires Readable(l) && StartsLive(op)
    ensures Readable(After(l, op, now)) <==> ClockIsPast(l, op, now) && (op.Launch? ==> HasRoom(l, now))
  {
    hide ValidSession, Unstale, Adopted, Edited, Applies, Pruned;
    if op.Launch? {
      LaunchReadable(l, op, now);
    } else if op.ListSessions? {
      RecoveredIsReadable(l, now);
    } else if op.Open? {
      OpenReadable(l, now);
    } else {
      EditReadable(l, op, now);
    }
  }

  lemma OpenReadable(l: Ledger, now: int)
    requires Readable(l)
    ensures Readable(After(l, Open, now)) <==> ClockIsPast(l, Open, now)
  {
    hide ValidSession, Adopted;
    var r := RecoverOrphaned(l, now);
    forall i | 0 <= i < |l| ensures ValidSession(r[i]) <==> (Live(l[i]) ==> now >= l[i].started) {
      AdoptedValidity(l[i], now);
    }
    assert After(l, Open, now) == r;
  }

  lemma LaunchReadable(l: Ledger, op: Op, now: int)
    requires Readable(l) && StartsLive(op) && op.Launch?
    ensures Readable(After(l, op, now)) <==> ClockIsPast(l, op, now) && HasRoom(l, now)
  {
    hide Unstale, Pruned;
    var current := RecoverStale(l, now);
    RecoveredIsReadable(l, now);
    PrunedSize(current);
    var s := NewSession(op.id, op.workspace, op.status, now);
    var r := After(l, op, now);
    assert r == Pruned(current) + [s];
    assert ValidSession(s) <==> ClockIsPast(l, op, now);
    hide ValidSession;
    assert r[|r| - 1] == s;
    assert forall i :: 0 <= i < |r| - 1 ==> r[i] in current;
    assert HasRoom(l, now) <==> |current| < MAX_RETAINED_SESSIONS || exists i :: 0 <= i < |current| && !Live(current[i]);
  }

  lemma EditReadable(l: Ledger, op: Op, now: int)
    requires Readable(l) && Edits(op)
    ensures Readable(After(l, op, now)) <==> ClockIsPast(l, op, now)
  {
    hide ValidSession, Unstale, Edited, Applies;
    var current := if RecoversFirst(op) then RecoverStale(l, now) else l;
    RecoveredIsReadable(l, now);
    var k := FindSession(current, op.id, 0);
    if k.Some? && Applies(op, current[k.value]) && (op.SetChangeRequests? || op.SetLinks? ==> ValidProposals(op.proposals)) {
      EditedValidity(op, current[k.value], now);
      var r := current[k.value := Edited(op, current[k.value], now)];
      assert After(l, op, now) == r;
      assert r[k.value] == Edited(op, current[k.value], now);
      assert forall i :: 0 <= i < |r| && i != k.value ==> r[i] == current[i];
    }
  }

  /** 4,096 sessions that all just reported. */
  function FullLedger(): Ledger {
    seq(MAX_RETAINED_SESSIONS, i requires 0 <= i < MAX_RETAINED_SESSIONS => NewSession(i + 1, 1, Running, 0))
  }

  /** One launch too many, and the ledger that it wrote cannot be read again. */
  lemma FullLedgerBreaks()
    ensures Readable(FullLedger()) && !Readable(After(FullLedger(), Launch(5000, 1, Launching), 0))
  {
    var l := FullLedger();
    assert forall i :: 0 <= i < |l| ==> l[i] == NewSession(i + 1, 1, Running, 0);
    assert !HasRoom(l, 0);
    hide FullLedger;
    StaysReadable(l, Launch(5000, 1, Launching), 0);
  }

  /** A heartbeat under a clock that went back by a millisecond breaks the ledger as well. */
  lemma ClockBackBreaks()
    ensures var l := [NewSession(1, 1, Running, 5)]; Readable(l) && !Readable(After(l, Heartbeat(1), 4))
  {
    var l := [NewSession(1, 1, Running, 5)];
    assert Unstale(l[0], 4) == l[0];
    assert FindSession(RecoverStale(l, 4), 1, 0) == Some(0);
    StaysReadable(l, Heartbeat(1), 4);
  }

  // ---------------------------------------------------------------- what is kept

  /** The status changes that exist; a session that is over stays as it is. */
  predicate Moves(a: Status, b: Status) {
    match a
    case Launching => true
    case Running => b.Running? || b.Stopping? || b.Completed? || b.Failed? || b.Interrupted?
    case Stopping => b.Stopping? || b.Completed? || b.Failed? || b.Interrupted?
    case _ => a == b
  }

  predicate Continues(a: Session, b: Session) {
    && a.id == b.id && a.workspace == b.workspace && a.started == b.started && Moves(a.status, b.status)
    && (!Live(a) ==> a == b)
  }

  ghost predicate AllContinue(a: Ledger, b: Ledger) {
    |a| == |b| && forall i :: 0 <= i < |a| ==> Continues(a[i], b[i])
  }

  /** The oldest finished session of a full ledger, which makes room for a new one. */
  ghost predicate MakesRoom(l: Ledger, k: nat) {
    && |l| >= MAX_RETAINED_SESSIONS && k < |l| && !Live(l[k])
    && forall i :: 0 <= i < |l| && !Live(l[i]) ==> !Older(l[i], l[k])
  }

  lemma EditContinues(op: Op, s: Session, now: int)
    requires Edits(op) && Applies(op, s)
    ensures Live(s) && Edited(op, s, now).id == s.id && Continues(s, Edited(op, s, now))
  {
  }

  lemma StaleContinues(l: Ledger, now: int)
    ensures AllContinue(l, RecoverStale(l, now)) && AllContinue(l, RecoverOrphaned(l, now))
  {
  }

  /** No operation but a launch removes or adds a record; finished records are frozen and statuses only move on. */
  lemma RecordsContinue(l: Ledger, op: Op, now: int)
    requires !op.Launch?
    ensures AllContinue(l, After(l, op, now))
  {
    hide Readable, RecoverStale, RecoverOrphaned, Edited, Applies;
    StaleContinues(l, now);
    if Edits(op) {
      var current := if RecoversFirst(op) then RecoverStale(l, now) else l;
      var k := FindSession(current, op.id, 0);
      if k.Some? && Applies(op, current[k.value]) {
        EditContinues(op, current[k.value], now);
      }
    }
  }

  /** A launch appends its record; at most one record is removed, and never one of a session that is alive and not stale. */
  lemma LaunchKeepsTheLiving(l: Ledger, op: Op, now: int)
    requires Readable(l) && op.Launch?
    ensures var r, current := After(l, op, now), RecoverStale(l, now);
            && AllContinue(l, current) && |r| > 0 && r[|r| - 1] == NewSession(op.id, op.workspace, op.status, now)
            && (r[..|r| - 1] == current
                || exists k: nat :: MakesRoom(current, k) && r[..|r| - 1] == Without(current, k))
  {
    hide Readable, Unstale;
    StaleContinues(l, now);
    var current := RecoverStale(l, now);
    var r := After(l, op, now);
    assert r[..|r| - 1] == Pruned(current);
    if Pruned(current) != current {
      var k := OldestOver(current, |current|).value;
      assert MakesRoom(current, k);
    }
  }

  // ---------------------------------------------------------------- whole histories

  /** One operation at a time that the clock shows, and whether its write succeeded. */
  datatype Event = Event(op: Op, now: int, written: bool)

  function Replayed(l: Ledger, events: seq<Event>): Ledger
    decreases |events|
  {
    if events == [] then l
    else Replayed(if events[0].written then After(l, events[0].op, events[0].now) else l, events[1..])
  }

  /** A history with a clock that never goes back, in which every launch finds room. */
  ghost predicate Orderly(l: Ledger, t: int, events: seq<Event>)
    decreases |events|
  {
    events != [] ==>
      var e := events[0];
      && t <= e.now && StartsLive(e.op)
      && (e.op.Launch? ==> e.op.id != 0 && e.op.workspace != 0 && HasRoom(l, e.now))
      && Orderly(if e.written then After(l, e.op, e.now) else l, e.now, events[1..])
  }

  ghost predicate StartedBy(l: Ledger, t: int) {
    forall i :: 0 <= i < |l| ==> l[i].started <= t
  }

  lemma StartedStays(l: Ledger, op: Op, t: int, now: int)
    requires Readable(l) && StartedBy(l, t) && t <= now
    ensures StartedBy(After(l, op, now), now)
  {
    hide Readable, After;
    if op.Launch? {
      LaunchedAreStarted(l, op, t, now);
    } else {
      RecordsContinue(l, op, now);
      assert forall i :: 0 <= i < |l| ==> Continues(l[i], After(l, op, now)[i]);
    }
  }

  lemma LaunchedAreStarted(l: Ledger, op: Op, t: int, now: int)
    requires Readable(l) && StartedBy(l, t) && t <= now && op.Launch?
    ensures StartedBy(After(l, op, now), now)
  {
    hide Readable, After, RecoverStale, Without;
    LaunchKeepsTheLiving(l, op, now);
    var r, current := After(l, op, now), RecoverStale(l, now);
    assert forall j :: 0 <= j < |l| ==> Continues(l[j], current[j]);
    assert StartedBy(current, now);
    forall i | 0 <= i < |r| ensures r[i].started <= now {
      if i < |r| - 1 {
        assert r[i] == r[..|r| - 1][i];
        if r[..|r| - 1] != current {
          var k: nat :| MakesRoom(current, k) && r[..|r| - 1] == Without(current, k);
          WithoutIsFewer(current, k, i);
        }
      }
    }
  }

  lemma WithoutIsFewer(l: Ledger, k: nat, i: nat)
    requires k < |l| && i < |Without(l, k)|
    ensures Without(l, k)[i] == l[if i < k then i else i + 1] && i + 1 < |l| + (if i < k then 1 else 0)
  {
  }

  lemma PastIsPast(l: Ledger, op: Op, t: int, now: int)
    requires StartedBy(l, t) && t <= now && 0 <= now && (op.Launch? ==> op.id != 0 && op.workspace != 0)
    ensures ClockIsPast(l, op, now)
  {
    hide Applies;
  }

  /** Over any orderly history the ledger can always be opened again. */
  lemma {:induction false} LedgerStaysReadable(l: Ledger, t: int, events: seq<Event>)
    requires Readable(l) && StartedBy(l, t) && 0 <= t && Orderly(l, t, events)
    ensures Readable(Replayed(l, events))
    decreases |events|
  {
    hide Readable, StartedBy, After, ClockIsPast, HasRoom, StartsLive;
    if events != [] {
      var e := events[0];
      PastIsPast(l, e.op, t, e.now);
      StaysReadable(l, e.op, e.now);
      StartedStays(l, e.op, t, e.now);
      StillStarted(l, t, e.now);
      LedgerStaysReadable(if e.written then After(l, e.op, e.now) else l, e.now, events[1..]);
    }
  }

  lemma StillStarted(l: Ledger, t: int, now: int)
    requires StartedBy(l, t) && t <= now
    ensures StartedBy(l, now)
  {
  }
}
