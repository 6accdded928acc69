/**
 One host's view of the shared disk. Each method is one critical section under the store lock and
 the disk lock; each is proved to be a run of QueueProtocol steps, so that it keeps the invariant
 at every point where the host may stop, and is given its exact effect on the files.
 */
module ConversationStore {
  import opened Options
  import opened Conversations
  import opened ConversationEdits
  import opened QueueProtocol
  import opened QueueSafety
  import opened QueueRuns
  import opened SharedDisk
  import opened EditEffects
  import opened QueuePump
  import opened PassOutcome
  import opened QueuePositions
  import opened Sorting

  const MAX_CONVERSATIONS := 4096
  const MAX_SEQUENCE := 9_007_199_254_740_991
  const MAX_BODY_CHARS := 16_384

  datatype Failure = Invalid | NotFound | Conflict | Limit | QueueFull | StorageFull | Unavailable

  datatype Sent = Accepted | AlreadySent | SendFailed(failure: Failure)

  datatype CacheEntry = CacheEntry(stamp: nat, work: bool)

  predicate ValidBody(request: Id, body: string) {
    && request != 0 && |body| <= MAX_BODY_CHARS && '\0' !in body
    && exists i :: 0 <= i < |body| && !Space(body[i])
  }

  ghost predicate Honest(cache: map<Id, CacheEntry>, seen: Sightings) {
    forall id :: id in cache ==> Sighting(id, cache[id].stamp) in seen && seen[Sighting(id, cache[id].stamp)] == cache[id].work
  }

  lemma CachingStaysHonest(cache: map<Id, CacheEntry>, seen: Sightings, id: Id, stamp: nat, work: bool)
    requires Honest(cache, seen) && Sighting(id, stamp) in seen && seen[Sighting(id, stamp)] == work
    ensures Honest(cache[id := CacheEntry(stamp, work)], seen)
  {
  }

  lemma ForgettingStaysHonest(cache: map<Id, CacheEntry>, seen: Sightings, ids: set<Id>)
    requires Honest(cache, seen)
    ensures Honest(map id | id in cache && id in ids :: cache[id], seen)
  {
  }

  /** Whatever other hosts write, what the cache says of earlier stamps stays right. */
  lemma RememberingStaysHonest(cache: map<Id, CacheEntry>, before: Sightings, after: Sightings)
    requires Honest(cache, before) && Remembers(before, after)
    ensures Honest(cache, after)
  {
  }

  lemma SkippedHasNoWork(cache: map<Id, CacheEntry>, seen: Sightings, id: Id, stamp: nat, work: bool)
    requires Honest(cache, seen) && Sighting(id, stamp) in seen && seen[Sighting(id, stamp)] == work
    requires id in cache && cache[id].stamp == stamp && !cache[id].work
    ensures !work
  {
  }

  lemma NothingListedYet(files: Saved)
    ensures ListsExactlyWork(files, {}, [])
  {
  }

  /** pending holds those of the given files that have work: all of them, and each once. */
  ghost predicate ListsExactlyWork(files: Saved, ids: set<Id>, pending: seq<Conversation>) {
    && (forall x :: 0 <= x < |pending| ==>
          pending[x].id in ids && pending[x].id in files && files[pending[x].id] == pending[x] && HasWork(pending[x]))
    && (forall x, y :: 0 <= x < y < |pending| ==> pending[x].id != pending[y].id)
    && (forall id :: id in ids && id in files && HasWork(files[id]) ==> exists x :: 0 <= x < |pending| && pending[x].id == id)
  }

  lemma ListingGrows(files: Saved, ids: set<Id>, pending: seq<Conversation>, id: Id)
    requires ListsExactlyWork(files, ids, pending) && id in files && id !in ids && files[id].id == id
    ensures ListsExactlyWork(files, ids + {id}, if HasWork(files[id]) then pending + [files[id]] else pending)
  {
    hide HasWork;
    var p := if HasWork(files[id]) then pending + [files[id]] else pending;
    forall k | k in ids + {id} && k in files && HasWork(files[k]) ensures exists x :: 0 <= x < |p| && p[x].id == k {
      if k == id {
        assert p[|pending|].id == k;
      } else {
        var x :| 0 <= x < |pending| && pending[x].id == k;
        assert p[x].id == k;
      }
    }
  }

  class ConversationStore {
    const disk: Disk
    const host: nat
    const size: Conversation -> nat   // the length of the serialized file
    var workCache: map<Id, CacheEntry>

    constructor (disk: Disk, host: nat, size: Conversation -> nat)
      ensures this.disk == disk && this.host == host && this.size == size && CacheHonest()
    {
      this.disk, this.host, this.size := disk, host, size;
      workCache := map[];
    }

    /** Every cached answer was right for the stamp it is cached with. */
    ghost predicate CacheHonest()
      reads this, disk
    {
      Honest(workCache, disk.seen)
    }

    // -------------------------------------------------------------- the cached scan

    /** The scan skips a file only when the cache says it had no work under the stamp it still has. */
    method WorkConversations() returns (ok: bool, pending: seq<Conversation>)
      requires disk.StampsTell() && CacheHonest()
      requires forall id :: id in disk.files ==> disk.files[id].id == id
      modifies this`workCache
      ensures CacheHonest()
      ensures ok <==> |disk.files| <= MAX_CONVERSATIONS
      ensures ok ==> ListsExactlyWork(disk.files, disk.files.Keys, pending)
    {
      hide HasWork, ListsExactlyWork, Honest, Disk.StampsTell;
      pending := [];
      if |disk.files| > MAX_CONVERSATIONS { return false, []; }
      ForgetMissingFiles();
      var left := disk.files.Keys;
      ghost var done: set<Id> := {};
      NothingListedYet(disk.files);
      while left != {}
        invariant left + done == disk.files.Keys && left !! done && Honest(workCache, disk.seen)
        invariant ListsExactlyWork(disk.files, done, pending)
        decreases |left|
      {
        var id :| id in left;
        left := left - {id};
        ListingGrows(disk.files, done, pending, id);
        var work := ScanFile(id);
        if work {
          pending := pending + [disk.files[id]];
        }
        done := done + {id};
      }
      assert done == disk.files.Keys;
      ok := true;
    }

    method ForgetMissingFiles()
      requires Honest(workCache, disk.seen)
      modifies this`workCache
      ensures Honest(workCache, disk.seen)
    {
      ForgettingStaysHonest(workCache, disk.seen, disk.files.Keys);
      workCache := map id | id in workCache && id in disk.files.Keys :: workCache[id];
    }

    /** Reads a file unless the cache knows that it had no work under the stamp it still has. */
    method ScanFile(id: Id) returns (work: bool)
      requires disk.StampsTell() && Honest(workCache, disk.seen) && id in disk.files
      modifies this`workCache
      ensures Honest(workCache, disk.seen) && (work <==> HasWork(disk.files[id]))
    {
      hide HasWork, Honest;
      var stamp, c := disk.stamps[id], disk.files[id];
      if !(id in workCache && workCache[id].stamp == stamp && !workCache[id].work) {
        work := HasWork(c);
        CachingStaysHonest(workCache, disk.seen, id, stamp, work);
        workCache := workCache[id := CacheEntry(stamp, work)];
      } else {
        SkippedHasNoWork(workCache, disk.seen, id, stamp, HasWork(c));
        work := false;
      }
    }

    // -------------------------------------------------------------- recovery

    /** A non-blocking exclusive lock of the lease file: it fails while any holder is left. */
    method TurnLease(key: Key) returns (free: bool)
      ensures free <==> LeaseFree(disk.Model(), key)
    {
      free := key !in disk.others && Unheld(disk.files, disk.homes, disk.workers.Keys + disk.children, key);
    }

    method InterruptTurn(c: Conversation) returns (c': Conversation)
      ensures c' == Recovered(c) && c'.id == c.id
    {
      var messages := c.messages;
      var i := 0;
      while i < |messages|
        invariant i <= |messages| == |c.messages|
        invariant forall k :: 0 <= k < i ==> messages[k] == Interrupt(c.messages[k])
        invariant forall k :: i <= k < |messages| ==> messages[k] == c.messages[k]
      {
        if Live(messages[i]) {
          messages := messages[i := messages[i].(status := Interrupted, error := Some(HOST_STOPPED))];
        }
        i := i + 1;
      }
      c' := c.(active := None, messages := messages);
      assert c' == Recovered(c);
    }

    method RecoverIfUnowned(c: Conversation) returns (c': Conversation)
      requires disk.Valid() && c.id in disk.files && disk.files[c.id] == c
      modifies disk`files, disk`stamps, disk`seen
      ensures disk.Valid() && Remembers(old(disk.seen), disk.seen)
      ensures c' == Refreshed(old(disk.Model()), c) && ReadAs(old(disk.Model()), c, c')
      ensures disk.files == old(disk.files)[c.id := c']
      ensures Reaches(old(disk.Model()), disk.Model())
    {
      hide Inv, Reaches, HasWork, Recovered, LeaseFree, HasRecovered;
      ReachesItself(disk.Model());
      RecoveredHasRecovered(c);
      c' := c;
      var free := TurnLease(KeyOf(c));
      if c.active.Some? && free {
        ghost var before := disk.Model();
        c' := InterruptTurn(c);
        StepTaken(before, Recover(c.id));
        disk.WriteFile(c');
        assert disk.Model() == Apply(before, Recover(c.id));
      }
    }

    // -------------------------------------------------------------- sending

    method CountQueued(c: Conversation) returns (n: nat)
      ensures n == |QueuedAt(c)|
    {
      n := 0;
      var i := 0;
      ghost var found: set<nat> := {};
      while i < |c.messages|
        invariant i <= |c.messages| && n == |found| && found == set k: nat | k < i && Waiting(c.messages[k])
      {
        if Waiting(c.messages[i]) {
          n := n + 1;
          found := found + {i};
        }
        i := i + 1;
      }
      assert found == QueuedAt(c);
    }

    /** Queued messages of one workspace, counted over the scanned conversations only. */
    method CountWorkspaceQueue(all: seq<Conversation>, w: Workspace) returns (n: nat)
      requires ListsExactlyWork(disk.files, disk.files.Keys, all)
      ensures n == |QueuedIn(disk.files, w)|
    {
      hide QueuedInFirst, QueuedIn, QueuedAt, ListsExactlyWork;
      n := 0;
      var x := 0;
      NothingCounted(all, w);
      while x < |all|
        invariant x <= |all| && n == |QueuedInFirst(all, x, w)|
      {
        SlotsOfOneMore(disk.files, all, x, w);
        if all[x].workspace == w {
          var own := CountQueued(all[x]);
          n := n + own;
        }
        x := x + 1;
      }
      ScannedSlotsAreAll(disk.files, all, w);
    }

    /**
     A new request is queued at most once: a known request id is answered from what is stored. The
     counter is written before the message, so a host that stops in between wastes a number and reuses none.
     */
    method Send(id: Id, request: Id, body: string, message: Id, now: int, childMaySend: bool) returns (r: Sent)
      requires disk.Valid() && CacheHonest() && message !in disk.issued
      modifies disk, this`workCache
      ensures disk.Valid() && CacheHonest() && Remembers(old(disk.seen), disk.seen)
      ensures Reaches(old(disk.Model()), disk.Model())
      ensures !ValidBody(request, body) ==> r == SendFailed(Invalid)
      ensures IsBadBody(request, body) ==> r == SendFailed(Invalid)
      ensures ValidBody(request, body) && id !in old(disk.files) ==> r == SendFailed(NotFound)
      ensures !ValidBody(request, body) || id !in old(disk.files) ==> disk.Model() == old(disk.Model())
      ensures ValidBody(request, body) && id in old(disk.files) ==>
                var c := Refreshed(old(disk.Model()), old(disk.files)[id]);
                var accepted := Enqueued(c, NewRequest(message, request, body, old(disk.counter) + 1, now));
                && r == SendOutcome(old(disk.files)[id := c], old(disk.counter), c, accepted, request, body, size(accepted), childMaySend)
                && disk.files == old(disk.files)[id := if r.Accepted? then accepted else c]
                && disk.counter == old(disk.counter) + (if r.Accepted? then 1 else 0)
      ensures ValidBody(request, body) && id in old(disk.files) ==>
                && id in disk.files && disk.files == old(disk.files)[id := disk.files[id]]
                && SendDid(old(disk.Model()), r, old(disk.files)[id], disk.files[id], request, body, message, now, childMaySend, size)
                && disk.counter == old(disk.counter) + (if r.Accepted? then 1 else 0)
    {
      hide Inv, Reaches, HasWork, Enqueued, QueuedIn, QueuedAt, SendOutcome, ValidBody, FindRequest, LeaseFree, NewRequest, Disk.StampsTell,
           SendDid, ReadAs, IsBadBody;
      BodyIsValid(request, body);
      ReachesItself(disk.Model());
      if !ValidBody(request, body) { return SendFailed(Invalid); }
      if id !in disk.files { return SendFailed(NotFound); }
      ghost var start := disk.Model();
      FilesKeepTheirIds(start);
      var c := RecoverIfUnowned(disk.files[id]);
      var accepted := Enqueued(c, NewRequest(message, request, body, disk.counter + 1, now));
      FilesKeepTheirIds(disk.Model());
      r := Decide(c, accepted, request, body, childMaySend);
      StoredIsSound(disk.Model(), id);
      SendMeans(start, r, start.conversations[id], c, request, body, message, now, childMaySend, size);
      if r.Accepted? {
        AcceptedMayBeQueued(disk.files, disk.counter, c, accepted, request, body, size(accepted), childMaySend);
        WriteRequest(start, c, accepted, request, body, message, now);
      }
    }

    /** What a request comes to, before anything is written for it. */
    method Decide(c: Conversation, accepted: Conversation, request: Id, body: string, childMaySend: bool) returns (r: Sent)
      requires disk.StampsTell() && CacheHonest()
      requires forall id :: id in disk.files ==> disk.files[id].id == id
      modifies this`workCache
      ensures CacheHonest()
      ensures r == SendOutcome(disk.files, disk.counter, c, accepted, request, body, size(accepted), childMaySend)
    {
      hide HasWork, Honest, QueuedIn, QueuedAt, ListsExactlyWork;
      var known := FindRequest(c.messages, request, 0);
      if known.Some? {
        if Submitted(c.messages[known.value]) != body { return SendFailed(Failure.Conflict); }
        var listed, _ := WorkConversations();
        return if listed then AlreadySent else SendFailed(Unavailable);
      }
      if !childMaySend { return SendFailed(Failure.Conflict); }
      var queued := CountQueued(c);
      if |c.messages| + queued >= MAX_TURN_SLOTS { return SendFailed(Failure.Limit); }
      var listed, all := WorkConversations();
      if !listed { return SendFailed(Unavailable); }
      var waiting := CountWorkspaceQueue(all, c.workspace);
      if waiting >= MAX_QUEUED_PER_WORKSPACE { return SendFailed(QueueFull); }
      if disk.counter + 1 > MAX_SEQUENCE { return SendFailed(StorageFull); }
      if size(accepted) > TURN_CAPACITY { return SendFailed(Failure.Limit); }
      r := Accepted;
    }

    /** The two writes of an accepted request, in their order. */
    method WriteRequest(ghost start: Store, c: Conversation, c': Conversation, request: Id, body: string, message: Id, now: int)
      requires disk.Valid() && Reaches(start, disk.Model())
      requires c.id in disk.files && disk.files[c.id] == c && message !in disk.issued
      requires |c.messages| + |QueuedAt(c)| < MAX_TURN_SLOTS && FindRequest(c.messages, request, 0).None?
      requires |QueuedIn(disk.files, c.workspace)| < MAX_QUEUED_PER_WORKSPACE
      requires c' == Enqueued(c, NewRequest(message, request, body, disk.counter + 1, now))
      modifies disk
      ensures disk.Valid() && Reaches(start, disk.Model()) && Remembers(old(disk.seen), disk.seen)
      ensures disk.counter == old(disk.counter) + 1 && disk.files == old(disk.files)[c.id := c']
    {
      hide Inv, Reaches, HasWork, QueuedIn, NewRequest;
      ghost var before := disk.Model();
      disk.counter := disk.counter + 1;
      ghost var reserved := disk.Model();
      ReserveStep(start, before);
      disk.WriteFile(c');
      disk.tickets := disk.tickets[disk.counter := Slot(c.id, |c.messages|)];
      disk.issued := disk.issued[message := Some(Slot(c.id, |c.messages|))];
      EnqueueStep(start, before, reserved, c.id, message, request, body, now);
      assert disk.Model() == AfterEnqueue(reserved, c.id, message, request, body, now);
    }

    /** The conversation as its reader sees it, with the queue positions of the whole workspace. */
    method View(c: Conversation) returns (view: Option<Conversation>)
      requires disk.Valid() && CacheHonest() && c.id in disk.files && disk.files[c.id] == c
      modifies this`workCache
      ensures CacheHonest()
      ensures view.Some? <==> |disk.files| <= MAX_CONVERSATIONS
      ensures view.Some? ==> PlacedOne(c, view.value, StoreQueue(disk.files, c.workspace))
    {
      hide Inv, HasWork, PlacedOne, StoreQueue, ListsExactlyWork, ListsWork, IdsIssued, Honest;
      FilesKeepTheirIds(disk.Model());
      var listed, all := WorkConversations();
      if !listed { return None; }
      ListIsForPositions(disk.Model(), all);
      var placed := SetConversationQueuePositions(all, c, disk.files, disk.issued);
      view := Some(placed);
    }

    // -------------------------------------------------------------- edit and cancel

    /** Edit (a new body) or cancel (none) a queued message, at most once per request. */
    method MutateQueuedMessage(id: Id, message: Id, request: Id, expected: string, body: Option<string>)
      returns (r: Mutated, view: Option<Conversation>)
      requires disk.Valid() && CacheHonest()
      modifies disk`files, disk`stamps, disk`seen, this`workCache
      ensures disk.Valid() && CacheHonest() && Remembers(old(disk.seen), disk.seen)
      ensures Reaches(old(disk.Model()), disk.Model())
      ensures !ValidMutation(message, request, expected, body) ==> r == MutationFailed(Invalid)
      ensures r == MutationFailed(Invalid) <==> IsBadChange(message, request, expected, body)
      ensures ValidMutation(message, request, expected, body) && id !in old(disk.files) ==> r == MutationFailed(NotFound)
      ensures !ValidMutation(message, request, expected, body) || id !in old(disk.files) ==> disk.Model() == old(disk.Model())
      ensures ValidMutation(message, request, expected, body) && id in old(disk.files) ==>
                var m := Mutate(old(disk.files)[id], message, request, expected, body);
                && r == MutationOutcome(m, |old(disk.files)|, size, body.Some?)
                && disk.files == if Fits(m, size, body.Some?) then old(disk.files)[id := m.conversation] else old(disk.files)
      ensures ValidMutation(message, request, expected, body) && id in old(disk.files) ==>
                && id in disk.files && disk.files == old(disk.files)[id := disk.files[id]]
                && ChangeDid(old(disk.files)[id], disk.files[id], message, request, expected, body, size)
                && ChangeAnswered(old(disk.files)[id], r, |old(disk.files)|, message, request, expected, body, size)
      ensures r.Done? ==> view.Some? && id in disk.files && PlacedOne(disk.files[id], view.value, StoreQueue(disk.files, disk.files[id].workspace))
    {
      hide Inv, Reaches, HasWork, Mutate, PlacedOne, StoreQueue, ValidMutation, Disk.StampsTell, AfterChange, ChangeDid, ChangeAnswered;
      ReachesItself(disk.Model());
      ChangeIsValid(message, request, expected, body);
      hide ValidMutation, IsBadChange;
      if !ValidMutation(message, request, expected, body) { return MutationFailed(Invalid), None; }
      if id !in disk.files { return MutationFailed(NotFound), None; }
      ghost var before := disk.Model();
      FilesKeepTheirIds(before);
      var c := disk.files[id];
      var m := EditQueuedMessage(c, message, request, expected, body);
      ChangeMeans(before, id, message, request, expected, body, size);
      AnswerMeans(before, id, message, request, expected, body, size, |disk.files|);
      if m.Conflict? { return MutationFailed(Failure.Conflict), None; }
      if m.Limit? { return MutationFailed(Failure.Limit), None; }
      if m.Applied? {
        if body.Some? && size(m.conversation) > TURN_CAPACITY { return MutationFailed(Failure.Limit), None; }
        ChangeTaken(before, id, message, request, expected, body);
        disk.WriteFile(m.conversation);
        assert disk.Model() == AfterChange(before, id, m) by { ChangeIsAWrite(before, id, m); }
        FilesKeepTheirIds(disk.Model());
      }
      view := View(disk.files[id]);
      r := if view.Some? then Done else MutationFailed(Unavailable);
    }

    /** The edit itself, on the conversation in memory. */
    method EditQueuedMessage(c: Conversation, message: Id, request: Id, expected: string, body: Option<string>) returns (m: Mutation)
      ensures m == Mutate(c, message, request, expected, body)
      ensures Sound(c) ==> ChangeMade(c, m, message, request, expected, body)
    {
      hide Sound, ChangeMade;
      if Sound(c) { MutateExactly(c, message, request, expected, body); }
      if body.Some? && c.workItem { return Mutation.Conflict; }
      var u := FindUser(c.messages, message);
      if u.None? { return Mutation.Conflict; }
      var current := c.messages[u.value];
      var digest := Receipt(request, message, expected, body);
      var receipt := FindReceipt(c.mutations, request, 0);
      if receipt.Some? {
        var same := c.mutations[receipt.value] == digest && current.lastMutation == Some(request);
        return if same then Replayed else Mutation.Conflict;
      }
      if !current.status.Queued? || current.body != expected { return Mutation.Conflict; }
      if |c.mutations| >= MAX_MUTATION_RECEIPTS { return Mutation.Limit; }
      if body.Some? {
        current := current.(body := body.value);
      } else {
        current := current.(status := Cancelled);
      }
      current := current.(lastMutation := Some(request));
      current := current.(position := None);
      m := Applied(c.(messages := c.messages[u.value := current], mutations := c.mutations + [digest]));
    }

    // -------------------------------------------------------------- a worker reports

    method Progress(session: Id, update: Option<string>)
      requires disk.Valid() && session in disk.workers
      modifies disk`files, disk`stamps, disk`seen
      ensures disk.Valid() && Remembers(old(disk.seen), disk.seen)
      ensures Reaches(old(disk.Model()), disk.Model())
      ensures session in disk.homes && disk.homes[session] in old(disk.files)
      ensures var id, reply := disk.homes[session], disk.workers[session].reply;
              disk.files == old(disk.files)[id := Progressed(old(disk.files)[id], reply, session, update)]
      ensures var id, reply := disk.homes[session], disk.workers[session].reply;
              id in disk.files && ProgressSeen(old(disk.files)[id], disk.files[id], reply, update)
    {
      hide Inv, Reaches, HasWork, Progressed, ProgressSeen, EndSeen;
      ghost var before := disk.Model();
      ReportIsSeen(before, session, update, None, false, None);
      WorkerHasAHome(before, session);
      var id, reply := disk.homes[session], disk.workers[session].reply;
      var c := disk.files[id];
      var c' := c;
      if c.active == Some(session) {
        var a := Find(c.messages, reply);
        if a.Some? {
          var m := c.messages[a.value].(status := Running);
          if update.Some? {
            m := m.(progress := update);
          }
          c' := c.(messages := c.messages[a.value := m]);
        }
      }
      assert c' == Progressed(c, reply, session, update) by { ProgressUnfolds(c, reply, session, update); }
      ProgressTaken(before, session, update);
      disk.WriteFile(c');
      assert disk.Model() == AfterProgress(before, session, update);
    }

    /** The lease is dropped before the result is stored, and also when it cannot be stored. */
    method Finish(session: Id, output: Option<Output>, interrupted: bool, failure: Option<string>, stored: bool)
      requires disk.Valid() && session in disk.workers
      modifies disk`files, disk`stamps, disk`seen, disk`workers, disk`finished
      ensures disk.Valid() && Remembers(old(disk.seen), disk.seen)
      ensures Reaches(old(disk.Model()), disk.Model())
      ensures disk.workers == old(disk.workers) - {session}
      ensures session in disk.homes && disk.homes[session] in old(disk.files)
      ensures !stored ==> disk.files == old(disk.files)
      ensures stored ==>
                var id, reply := disk.homes[session], old(disk.workers)[session].reply;
                var c := old(disk.files)[id];
                && disk.files == old(disk.files)[id := Finished(c, reply, session, output, Outcome(interrupted, failure), failure)]
                && disk.files[id].active.None?
      ensures stored ==>
                var id, reply := disk.homes[session], old(disk.workers)[session].reply;
                id in disk.files && EndSeen(old(disk.files)[id], disk.files[id], session, reply, output, interrupted, failure)
    {
      hide Inv, Reaches, HasWork, Finished, ProgressSeen, EndSeen;
      ghost var before := disk.Model();
      ReportIsSeen(before, session, None, output, interrupted, failure);
      WorkerHasAHome(before, session);
      var id, reply := disk.homes[session], disk.workers[session].reply;
      disk.workers := disk.workers - {session};
      if !stored {
        LossTaken(before, session);
        return;
      }
      var c' := FinishTurn(disk.files[id], reply, session, output, Outcome(interrupted, failure), failure);
      FinishTaken(before, session, output, interrupted, failure);
      FinishedHasNoTurn(disk.files[id], reply, session, output, Outcome(interrupted, failure), failure);
      disk.WriteFile(c');
      disk.finished := disk.finished + {session};
      assert disk.Model() == AfterFinish(before, session, output, interrupted, failure);
    }

    method FinishTurn(c: Conversation, reply: Id, session: Id, output: Option<Output>, status: Status, error: Option<string>)
      returns (c': Conversation)
      ensures c' == Finished(c, reply, session, output, status, error)
    {
      if c.active != Some(session) { return c; }
      var messages := c.messages;
      var a := Find(messages, reply);
      if a.Some? {
        var m := messages[a.value];
        if output.Some? {
          m := m.(body := output.value.body, progress := Trimmed(output.value.progress), diagnostic := Trimmed(output.value.diagnostic));
        }
        messages := messages[a.value := m.(status := status, error := error)];
      }
      ghost var filled := messages;
      assert filled == FillReply(c.messages, reply, output, status, error);
      var i := 0;
      while i < |messages|
        invariant i <= |messages| == |filled|
        invariant forall k :: 0 <= k < i ==> messages[k] == FinishAsk(filled[k], session, status)
        invariant forall k :: i <= k < |messages| ==> messages[k] == filled[k]
      {
        if messages[i].role.User? && messages[i].session == Some(session) {
          messages := messages[i := messages[i].(status := status)];
        }
        i := i + 1;
      }
      assert messages == SettleAsks(filled, session, status);
      c' := c.(active := None, messages := messages);
    }

    // -------------------------------------------------------------- the pump

    /** Recovers every scanned conversation whose lease is free, and notes the workspaces that still run a turn. */
    method RecoverAll(all: seq<Conversation>) returns (current: seq<Conversation>, busy: set<Workspace>)
      requires disk.Valid() && ListsExactlyWork(disk.files, disk.files.Keys, all)
      modifies disk`files, disk`stamps, disk`seen
      ensures disk.Valid() && Remembers(old(disk.seen), disk.seen)
      ensures Reaches(old(disk.Model()), disk.Model())
      ensures disk.Model() == AllRefreshed(old(disk.Model()))
      ensures ListsCurrent(disk.files, current)
      ensures forall w :: w in busy <==> RunsIn(disk.files, w)
    {
      hide Inv, Reaches, HasWork, LeaseFree, Recovered, RecoveredFirst, ListsExactlyWork, ReadAs;
      ghost var before := disk.Model();
      ReachesItself(before);
      current := [];
      busy := {};
      var x := 0;
      RecoveredNone(before, all);
      while x < |all|
        invariant x <= |all| && |current| == x && disk.Valid() && Remembers(old(disk.seen), disk.seen)
        invariant Reaches(before, disk.Model())
        invariant disk.Model() == before.(conversations := disk.files) && RecoveredFirst(before, disk.files, all, x)
        invariant forall k :: 0 <= k < x ==> current[k] == Refreshed(before, all[k])
        invariant forall w :: w in busy <==> exists k :: 0 <= k < x && current[k].active.Some? && current[k].workspace == w
      {
        NextIsUntouched(before, disk.files, all, x);
        ghost var was, middle := disk.files, disk.Model();
        var c := RecoverIfUnowned(all[x]);
        ReachesTransitive(before, middle, disk.Model());
        RecoveredOneMore(before, was, middle, all, x);
        current := current + [c];
        if c.active.Some? {
          busy := busy + {c.workspace};
        }
        x := x + 1;
      }
      RecoveredAllOfThem(before, disk.files, all, current);
    }

    method CollectCandidates(all: seq<Conversation>) returns (r: seq<Candidate>)
      ensures forall d :: d in r <==> IsCandidate(all, d, |all|, 0)
    {
      r := [];
      var x := 0;
      while x < |all|
        invariant x <= |all| && forall d :: d in r <==> IsCandidate(all, d, x, 0)
      {
        var i := 0;
        while i < |all[x].messages|
          invariant i <= |all[x].messages| && forall d :: d in r <==> IsCandidate(all, d, x, i)
        {
          ghost var had := r;
          if all[x].messages[i].status.Queued? {
            r := r + [CandidateOf(all, x, i)];
          }
          OneMoreCandidate(all, had, r, x, i);
          i := i + 1;
        }
        forall d ensures IsCandidate(all, d, x, |all[x].messages|) <==> IsCandidate(all, d, x + 1, 0) {
        }
        x := x + 1;
      }
    }

    method FailQueuedMessage(ghost start: Store, ghost s: Store, ghost busy: set<Workspace>, c: Conversation,
                             message: Id, error: string, ghost i: nat, p: Pass)
      requires disk.Valid() && Reaches(start, disk.Model()) && AboutToAttempt(s, disk.Model(), busy, c, i, p) && c.messages[i].id == message
      requires Decision(p.attempt(message), p.size(c), LeaseFree(disk.Model(), KeyOf(c))) == Refused(error)
      modifies disk`files, disk`stamps, disk`seen, disk`starts
      ensures disk.Valid() && Remembers(old(disk.seen), disk.seen) && Reaches(start, disk.Model())
      ensures Dispatching(s, disk.Model(), busy + {c.workspace}, p)
    {
      hide Inv, Reaches, HasWork, LeaseFree, Dispatching, NamesDistinct, Eligible, Decision;
      ghost var t := disk.Model();
      FindsTheCandidate(s, c, i);
      var found := Find(c.messages, message);
      RefusalDispatches(start, s, t, busy, p, c.id, i, error);
      disk.starts := disk.starts + [Start(c.workspace, SequenceAt(c, i), false)];
      disk.WriteFile(NotStarted(c, found.value, error));
      assert disk.Model() == AfterRefuse(t, c.id, i, error);
    }

    /** The durable claim: the message runs, its reply slot exists, and this host's worker holds the lease. */
    method Claim(c: Conversation, i: nat, session: Id, reply: Id, p: Pass)
      requires disk.StampsTell() && c.id in disk.files && disk.files[c.id] == c && i < |c.messages|
      modifies disk`files, disk`stamps, disk`seen, disk`starts, disk`workers, disk`homes, disk`issued
      ensures disk.StampsTell() && Remembers(old(disk.seen), disk.seen)
      ensures disk.Model() == AfterClaim(old(disk.Model()), p.host, c.id, i, session, reply, p.now)
    {
      hide HasWork, Claimed, SequenceAt;
      disk.workers := disk.workers[session := Worker(p.host, reply)];
      disk.homes := disk.homes[session := c.id];
      disk.issued := disk.issued[session := None][reply := Some(Slot(c.id, |c.messages|))];
      disk.starts := disk.starts + [Start(c.workspace, SequenceAt(c, i), true)];
      ClaimKeepsItsId(c, i, session, reply, p.now);
      disk.WriteFile(Claimed(c, i, session, reply, p.now));
    }

    method Launch(ghost start: Store, ghost s: Store, ghost busy: set<Workspace>, c: Conversation, message: Id, ghost i: nat, p: Pass)
      requires disk.Valid() && Reaches(start, disk.Model()) && AboutToAttempt(s, disk.Model(), busy, c, i, p) && c.messages[i].id == message
      requires Decision(p.attempt(message), p.size(c), LeaseFree(disk.Model(), KeyOf(c))).Launched?
      modifies disk`files, disk`stamps, disk`seen, disk`starts, disk`workers, disk`homes, disk`issued
      ensures disk.Valid() && Remembers(old(disk.seen), disk.seen) && Reaches(start, disk.Model())
      ensures Dispatching(s, disk.Model(), busy + {c.workspace}, p)
    {
      hide Inv, Reaches, HasWork, LeaseFree, Unheld, Dispatching, NamesDistinct, Eligible, Decision, AfterClaim;
      ghost var t := disk.Model();
      FindsTheCandidate(s, c, i);
      var found := Find(c.messages, message);
      LaunchDispatches(start, s, t, busy, p, c.id, i);
      Claim(c, found.value, p.attempt(message).session, p.attempt(message).reply, p);
    }

    /** One candidate: the checks in their order, each of which may leave or fail the message. */
    method AttemptTurn(ghost start: Store, ghost s: Store, ghost busy: set<Workspace>, c: Conversation, message: Id, ghost i: nat, p: Pass)
      requires disk.Valid() && Reaches(start, disk.Model()) && AboutToAttempt(s, disk.Model(), busy, c, i, p) && c.messages[i].id == message
      modifies disk`files, disk`stamps, disk`seen, disk`starts, disk`workers, disk`homes, disk`issued
      ensures disk.Valid() && Remembers(old(disk.seen), disk.seen) && Reaches(start, disk.Model())
      ensures Dispatching(s, disk.Model(), busy + {c.workspace}, p)
      ensures c.id in disk.files && NextFares(s, c, i, disk.files[c.id], disk.workers, p)
    {
      hide Inv, Reaches, HasWork, LeaseFree, Dispatching, NamesDistinct, Eligible, NextFares;
      var a := p.attempt(message);
      if a.deferred {
        NothingAttempted(s, disk.Model(), busy, p, c.id, i);
      } else if a.operation.Some? {
        FailQueuedMessage(start, s, busy, c, message, COULD_NOT_START + a.operation.value, i, p);
      } else if p.size(c) > TURN_CAPACITY {
        FailQueuedMessage(start, s, busy, c, message, COULD_NOT_START + TOO_LARGE, i, p);
      } else if a.lease.Some? {
        FailQueuedMessage(start, s, busy, c, message, COULD_NOT_START + a.lease.value, i, p);
      } else {
        var free := TurnLease(KeyOf(c));
        if !free {
          NothingAttempted(s, disk.Model(), busy, p, c.id, i);
        } else if a.launch.Some? {
          FailQueuedMessage(start, s, busy, c, message, COULD_NOT_START + a.launch.value, i, p);
        } else {
          Launch(start, s, busy, c, message, i, p);
        }
      }
      AttemptFares(s, disk.Model(), busy + {c.workspace}, c, i, p);
    }

    /**
     One pass of the pump. Everything unowned is recovered first; then each workspace without a running
     turn gets one attempt, for its least queued message, and nothing else changes.
     */
    method Pump(attempt: Id -> Attempt, now: int) returns (ok: bool)
      requires disk.Valid() && CacheHonest()
      requires NamesDistinct(attempt) && NamesUnused(disk.files, {}, attempt, disk.issued)
      modifies disk`files, disk`stamps, disk`seen, disk`starts, disk`workers, disk`homes, disk`issued, this`workCache
      ensures disk.Valid() && CacheHonest() && Remembers(old(disk.seen), disk.seen)
      ensures Reaches(old(disk.Model()), disk.Model())
      ensures ok <==> |old(disk.files)| <= MAX_CONVERSATIONS
      ensures !ok ==> disk.Model() == old(disk.Model())
      ensures ok ==> Pumped(AllRefreshed(old(disk.Model())), disk.files, disk.workers, Pass(host, attempt, size, now))
      ensures ok ==> AllFare(old(disk.Model()), disk.files, disk.workers, Pass(host, attempt, size, now))
    {
      hide Inv, Reaches, HasWork, LeaseFree, Dispatching, NamesDistinct, NamesUnused, Eligible, Pumped, AllRefreshed,
           ListsExactlyWork, ListsCurrent, RunsIn, AllFare;
      ghost var start := disk.Model();
      var p := Pass(host, attempt, size, now);
      ReachesItself(start);
      FilesKeepTheirIds(start);
      var listed, all := WorkConversations();
      if !listed { return false; }
      var current, busy := RecoverAll(all);
      ghost var s := disk.Model();
      NamesUnusedStill(start, s, attempt);
      PassBegins(s, busy, p);
      var candidates := CollectCandidates(current);
      CandidatesTotal();
      SortSorts(NoLater, candidates);
      SortHasTheSameElements(NoLater, candidates);
      candidates := Sort(NoLater, candidates);
      Dispatch(start, s, current, candidates, busy, p);
      PumpedFare(start, disk.files, disk.workers, p);
      ok := true;
    }

    method Dispatch(ghost start: Store, ghost s: Store, current: seq<Conversation>, candidates: seq<Candidate>,
                    began: set<Workspace>, p: Pass)
      requires disk.Valid() && s == disk.Model() && Reaches(start, s) && NamesDistinct(p.attempt)
      requires Dispatching(s, s, began, p) && ListsCurrent(s.conversations, current)
      requires SortedBy(NoLater, candidates) && forall d :: d in candidates <==> IsCandidate(current, d, |current|, 0)
      modifies disk`files, disk`stamps, disk`seen, disk`starts, disk`workers, disk`homes, disk`issued
      ensures disk.Valid() && Remembers(old(disk.seen), disk.seen) && Reaches(start, disk.Model())
      ensures Pumped(s, disk.files, disk.workers, p)
    {
      hide Inv, Reaches, HasWork, LeaseFree, Dispatching, NamesDistinct, Eligible, Pumped, IsCandidate, ListsCurrent,
           SortedBy, AboutToAttempt;
      var busy := began;
      var k := 0;
      while k < |candidates|
        invariant k <= |candidates| && disk.Valid() && Remembers(old(disk.seen), disk.seen) && Reaches(start, disk.Model())
        invariant Dispatching(s, disk.Model(), busy, p) && Handled(current, candidates, k, busy)
      {
        var d := candidates[k];
        CandidateIsListed(current, d);
        var c := current[d.index];
        if c.workspace !in busy {
          ghost var i := NextAttempt(s, disk.Model(), current, candidates, k, busy, p);
          AttemptTurn(start, s, busy, c, d.message, i, p);
          busy := busy + {c.workspace};
        }
        k := k + 1;
      }
      PassEnds(s, disk.Model(), current, candidates, busy, p);
    }
  }

  lemma ListIsForPositions(s: Store, all: seq<Conversation>)
    requires Inv(s) && ListsExactlyWork(s.conversations, s.conversations.Keys, all)
    ensures ListsWork(s.conversations, all) && IdsIssued(s.conversations, s.issued)
  {
    assert IdsIssued(s.conversations, s.issued) && ConversationsSound(s.conversations);
    hide HasWork;
    forall id | id in s.conversations && HasWork(s.conversations[id]) ensures exists x :: 0 <= x < |all| && all[x] == s.conversations[id] {
      var x :| 0 <= x < |all| && all[x].id == id;
      assert all[x] == s.conversations[id];
    }
  }

  datatype Mutated = Done | MutationFailed(failure: Failure)

  predicate ValidMutation(message: Id, request: Id, expected: string, body: Option<string>) {
    (body.Some? ==> ValidBody(request, body.value)) && ValidBody(request, expected) && message != 0
  }

  /** Only an edit can make the file too large; a cancel is always stored. */
  predicate Fits(m: Mutation, size: Conversation -> nat, editing: bool) {
    m.Applied? && !(editing && size(m.conversation) > TURN_CAPACITY)
  }

  function MutationOutcome(m: Mutation, files: nat, size: Conversation -> nat, editing: bool): Mutated {
    if m.Conflict? then MutationFailed(Failure.Conflict)
    else if m.Limit? || (m.Applied? && !Fits(m, size, editing)) then MutationFailed(Failure.Limit)
    else if files > MAX_CONVERSATIONS then MutationFailed(Unavailable)
    else Done
  }

  /** The file changes if and only if the change may be made and an edited file is not too large; then it has exactly the change. */
  ghost predicate ChangeDid(c: Conversation, after: Conversation, message: Id, request: Id, expected: string, body: Option<string>,
                            size: Conversation -> nat)
  {
    && (after != c <==>
          && MayChange(c, message, request, expected, body)
          && (body.Some? ==> exists c' :: HasChange(c, c', message, request, expected, body) && size(c') <= TURN_CAPACITY))
    && (after != c ==> HasChange(c, after, message, request, expected, body))
  }

  /** The edited conversation would fit; a cancel always does. */
  ghost predicate LeavesRoom(c: Conversation, message: Id, request: Id, expected: string, body: Option<string>, size: Conversation -> nat) {
    |c.mutations| < 1024
    && (body.Some? ==> exists c' :: HasChange(c, c', message, request, expected, body) && size(c') <= TURN_CAPACITY)
  }

  /** Done again when repeated; otherwise a conflict unless the message waits as expected, and refused without room. */
  ghost predicate ChangeAnswered(c: Conversation, r: Mutated, files: nat, message: Id, request: Id, expected: string, body: Option<string>,
                                 size: Conversation -> nat)
  {
    var repeated, wanted := IsRepeated(c, message, request, expected, body), IsWanted(c, message, request, expected, body);
    var room := LeavesRoom(c, message, request, expected, body, size);
    && (r == MutationFailed(Failure.Conflict) <==> !repeated && !wanted)
    && (r == MutationFailed(Failure.Limit) <==> wanted && !room)
    && (r == MutationFailed(Unavailable) <==> (repeated || (wanted && room)) && files > 4096)
    && (r.Done? <==> (repeated || (wanted && room)) && files <= 4096)
  }

  lemma AnswerMeans(s: Store, id: Id, message: Id, request: Id, expected: string, body: Option<string>, size: Conversation -> nat, files: nat)
    requires Inv(s) && id in s.conversations
    ensures var c := s.conversations[id];
            ChangeAnswered(c, MutationOutcome(Mutate(c, message, request, expected, body), files, size, body.Some?), files,
                           message, request, expected, body, size)
  {
    StoredIsSound(s, id);
    hide Inv, Sound, Mutate, HasChange, IsRepeated, IsWanted, LeavesRoom, Fits;
    var c := s.conversations[id];
    MutateExactly(c, message, request, expected, body);
    RoomIsFits(c, message, request, expected, body, size);
    RepeatedIsNotWanted(c, message, request, expected, body);
  }

  lemma RoomIsFits(c: Conversation, message: Id, request: Id, expected: string, body: Option<string>, size: Conversation -> nat)
    requires Sound(c)
    ensures var m := Mutate(c, message, request, expected, body);
            var room := LeavesRoom(c, message, request, expected, body, size);
            && (m.Applied? ==> (room <==> Fits(m, size, body.Some?)))
            && (room ==> |c.mutations| < 1024)
  {
    hide Sound, Mutate, HasChange, IsRepeated, IsWanted;
    MutateExactly(c, message, request, expected, body);
    var m := Mutate(c, message, request, expected, body);
    if m.Applied? {
      forall c' | HasChange(c, c', message, request, expected, body) ensures c' == m.conversation {
        OnlyOneChange(c, c', m.conversation, message, request, expected, body);
      }
    }
  }

  lemma RepeatedIsNotWanted(c: Conversation, message: Id, request: Id, expected: string, body: Option<string>)
    ensures !(IsRepeated(c, message, request, expected, body) && IsWanted(c, message, request, expected, body))
  {
  }

  lemma ChangeMeans(s: Store, id: Id, message: Id, request: Id, expected: string, body: Option<string>, size: Conversation -> nat)
    requires Inv(s) && id in s.conversations
    ensures var c := s.conversations[id];
            var m := Mutate(c, message, request, expected, body);
            ChangeDid(c, if Fits(m, size, body.Some?) then m.conversation else c, message, request, expected, body, size)
  {
    StoredIsSound(s, id);
    hide Inv, Sound, Mutate, HasChange, MayChange;
    var c := s.conversations[id];
    var m := Mutate(c, message, request, expected, body);
    MutateExactly(c, message, request, expected, body);
    if m.Applied? {
      ChangeIsSeen(c, m.conversation, message, request, expected, body);
      forall c' | HasChange(c, c', message, request, expected, body) ensures c' == m.conversation {
        OnlyOneChange(c, c', m.conversation, message, request, expected, body);
      }
    }
  }

  lemma ChangeIsSeen(c: Conversation, c': Conversation, message: Id, request: Id, expected: string, body: Option<string>)
    requires HasChange(c, c', message, request, expected, body)
    ensures c' != c
  {
    assert |c'.mutations| != |c.mutations|;
  }

  lemma OnlyOneChange(c: Conversation, a: Conversation, b: Conversation, message: Id, request: Id, expected: string, body: Option<string>)
    requires HasChange(c, a, message, request, expected, body) && HasChange(c, b, message, request, expected, body)
    ensures a == b
  {
    forall k | 0 <= k < |c.messages| ensures a.messages[k] == b.messages[k] {
    }
    assert a.messages == b.messages;
  }

  lemma ChangeIsAWrite(s: Store, id: Id, m: Mutation)
    requires m.Applied?
    ensures AfterChange(s, id, m) == s.(conversations := s.conversations[id := m.conversation])
  {
  }

  lemma ChangeTaken(s: Store, id: Id, message: Id, request: Id, expected: string, edit: Option<string>)
    requires Inv(s) && id in s.conversations && Mutate(s.conversations[id], message, request, expected, edit).Applied?
    ensures var m := Mutate(s.conversations[id], message, request, expected, edit);
            m.conversation.id == id && Inv(AfterChange(s, id, m)) && Reaches(s, AfterChange(s, id, m))
  {
    FilesKeepTheirIds(s);
    MutationKeepsItsId(s.conversations[id], message, request, expected, edit);
    hide Inv, Reaches, Mutate;
    ReachesItself(s);
    ReachesByStep(s, s, Change(id, message, request, expected, edit));
    StepKeepsInv(s, Change(id, message, request, expected, edit));
  }

  lemma WorkerHasAHome(s: Store, session: Id)
    requires Inv(s) && session in s.workers
    ensures Homed(s.conversations, s.homes, session) && s.conversations[s.homes[session]].id == s.homes[session]
    ensures s.conversations[s.homes[session]].active == Some(session)
  {
    assert WorkersOwnTheirTurn(s.conversations, s.homes, s.workers) && ConversationsSound(s.conversations);
  }

  lemma ProgressUnfolds(c: Conversation, reply: Id, session: Id, update: Option<string>)
    ensures Progressed(c, reply, session, update) ==
            if c.active != Some(session) || Find(c.messages, reply).None? then c
            else
              var a := Find(c.messages, reply).value;
              var m := c.messages[a].(status := Running);
              c.(messages := c.messages[a := if update.Some? then m.(progress := update) else m])
  {
  }

  /** The one message that is the worker's reply. */
  predicate IsReply(c: Conversation, a: nat, reply: Id) {
    a < |c.messages| && c.messages[a].id == reply && c.messages[a].role.Assistant?
  }

  /** The request and the reply of a session's turn. */
  predicate IsTurn(c: Conversation, u: nat, a: nat, session: Id, reply: Id) {
    IsReply(c, a, reply) && u < |c.messages| && c.messages[u].role.User? && c.messages[u].session == Some(session)
  }

  ghost predicate ProgressSeen(c: Conversation, c': Conversation, reply: Id, update: Option<string>) {
    exists a: nat :: IsReply(c, a, reply) && HasProgress(c, c', a, update)
  }

  ghost predicate EndSeen(c: Conversation, c': Conversation, session: Id, reply: Id, output: Option<Output>, interrupted: bool,
                          failure: Option<string>)
  {
    exists u: nat, a: nat :: IsTurn(c, u, a, session, reply) && HasEnded(c, c', u, a, output, interrupted, failure)
  }

  lemma ReportIsSeen(s: Store, session: Id, update: Option<string>, output: Option<Output>, interrupted: bool, failure: Option<string>)
    requires Inv(s) && session in s.workers
    ensures Homed(s.conversations, s.homes, session)
    ensures var c, reply := s.conversations[s.homes[session]], s.workers[session].reply;
            && ProgressSeen(c, Progressed(c, reply, session, update), reply, update)
            && EndSeen(c, Finished(c, reply, session, output, Outcome(interrupted, failure), failure), session, reply, output, interrupted, failure)
  {
    WorkerHasAHome(s, session);
    var c, reply := s.conversations[s.homes[session]], s.workers[session].reply;
    assert Sound(c) && RunsTurn(c, session, reply) by { WorkerRunsATurn(s, session); }
    hide Inv, Sound, HasProgress, HasEnded, Progressed, Finished;
    var u: nat, a: nat :| TurnAt(c, u, a, session) && c.messages[a].id == reply;
    IdsAreUnique(c);
    ProgressedHasProgress(c, a, session, update);
    FinishedHasEnded(c, u, a, session, output, interrupted, failure);
    assert IsReply(c, a, reply) && IsTurn(c, u, a, session, reply);
  }

  lemma WorkerRunsATurn(s: Store, session: Id)
    requires Inv(s) && session in s.workers
    ensures Homed(s.conversations, s.homes, session)
    ensures Sound(s.conversations[s.homes[session]]) && RunsTurn(s.conversations[s.homes[session]], session, s.workers[session].reply)
  {
    assert ConversationsSound(s.conversations) && WorkersOwnTheirTurn(s.conversations, s.homes, s.workers);
  }

  lemma IdsAreUnique(c: Conversation)
    requires Sound(c)
    ensures UniqueIds(c.messages)
  {
  }

  lemma StepTaken(s: Store, step: Step)
    requires Inv(s) && Enabled(s, step)
    ensures Inv(Apply(s, step)) && Reaches(s, Apply(s, step))
  {
    hide Inv, Reaches, Enabled, Apply;
    ReachesItself(s);
    ReachesByStep(s, s, step);
    StepKeepsInv(s, step);
  }

  lemma ProgressTaken(s: Store, session: Id, update: Option<string>)
    requires Inv(s) && session in s.workers
    ensures Homed(s.conversations, s.homes, session)
    ensures var t := AfterProgress(s, session, update); Inv(t) && Reaches(s, t)
  {
    hide Inv, Reaches, AfterProgress;
    WorkerHasAHome(s, session);
    StepTaken(s, Step.Progress(session, update));
  }

  lemma LossTaken(s: Store, session: Id)
    requires Inv(s) && session in s.workers
    ensures var t := s.(workers := s.workers - {session}); Inv(t) && Reaches(s, t)
  {
    hide Inv, Reaches;
    StepTaken(s, Lose(session));
  }

  lemma FinishTaken(s: Store, session: Id, output: Option<Output>, interrupted: bool, failure: Option<string>)
    requires Inv(s) && session in s.workers
    ensures Homed(s.conversations, s.homes, session)
    ensures var t := AfterFinish(s, session, output, interrupted, failure); Inv(t) && Reaches(s, t)
  {
    hide Inv, Reaches, AfterFinish;
    WorkerHasAHome(s, session);
    StepTaken(s, Step.Finish(session, output, interrupted, failure));
  }

  lemma FinishedHasNoTurn(c: Conversation, reply: Id, session: Id, output: Option<Output>, status: Status, error: Option<string>)
    requires c.active == Some(session)
    ensures Finished(c, reply, session, output, status, error).active.None?
    ensures Finished(c, reply, session, output, status, error).id == c.id
  {
  }

  // ---------------------------------------------------------------- recovering before a pass

  ghost predicate ListsCurrent(files: Saved, all: seq<Conversation>) {
    && (forall x :: 0 <= x < |all| ==> all[x].id in files && files[all[x].id] == all[x])
    && (forall id :: id in files && HasWork(files[id]) ==> exists x :: 0 <= x < |all| && all[x].id == id)
  }

  ghost predicate RunsIn(files: Saved, w: Workspace) {
    exists id :: id in files && files[id].active.Some? && files[id].workspace == w
  }

  /** The first k conversations of all have been refreshed, the other files are as before. */
  ghost predicate RecoveredFirst(before: Store, files: Saved, all: seq<Conversation>, k: nat)
    requires k <= |all|
  {
    && files.Keys == before.conversations.Keys
    && (forall x :: 0 <= x < k ==> all[x].id in files && files[all[x].id] == Refreshed(before, all[x]))
    && (forall id :: id in files && (forall x :: 0 <= x < k ==> all[x].id != id) ==> files[id] == before.conversations[id])
  }

  lemma RecoveredNone(before: Store, all: seq<Conversation>)
    ensures RecoveredFirst(before, before.conversations, all, 0)
  {
  }

  lemma NextIsUntouched(before: Store, files: Saved, all: seq<Conversation>, k: nat)
    requires k < |all| && RecoveredFirst(before, files, all, k) && ListsExactlyWork(before.conversations, before.conversations.Keys, all)
    ensures all[k].id in files && files[all[k].id] == all[k]
  {
  }

  lemma RefreshKeepsPlace(s: Store, c: Conversation)
    ensures Refreshed(s, c).id == c.id && KeyOf(Refreshed(s, c)) == KeyOf(c)
  {
  }

  lemma FilesKeepTheirPlaces(before: Store, files: Saved, all: seq<Conversation>, k: nat)
    requires k <= |all| && RecoveredFirst(before, files, all, k) && ListsExactlyWork(before.conversations, before.conversations.Keys, all)
    ensures forall id :: id in files ==> KeyOf(files[id]) == KeyOf(before.conversations[id])
  {
    hide Refreshed, HasWork;
    forall id | id in files ensures KeyOf(files[id]) == KeyOf(before.conversations[id]) {
      if x :| 0 <= x < k && all[x].id == id {
        RefreshKeepsPlace(before, all[x]);
      }
    }
  }

  lemma RecoveredOneMore(before: Store, files: Saved, middle: Store, all: seq<Conversation>, k: nat)
    requires k < |all| && RecoveredFirst(before, files, all, k) && ListsExactlyWork(before.conversations, before.conversations.Keys, all)
    requires middle == before.(conversations := files)
    ensures Refreshed(middle, all[k]) == Refreshed(before, all[k])
    ensures RecoveredFirst(before, files[all[k].id := Refreshed(before, all[k])], all, k + 1)
  {
    hide HasWork, Refreshed;
    FilesKeepTheirPlaces(before, files, all, k);
    RefreshAgrees(before, middle, all[k]);
    var files' := files[all[k].id := Refreshed(before, all[k])];
    assert all[k].id in files;
    assert files'.Keys == files.Keys;
    forall x | 0 <= x < k ensures files'[all[x].id] == files[all[x].id] {
      assert all[x].id != all[k].id;
    }
  }

  lemma RefreshAgrees(s: Store, t: Store, c: Conversation)
    requires t == s.(conversations := t.conversations) && t.conversations.Keys == s.conversations.Keys
    requires forall id :: id in s.conversations ==> KeyOf(t.conversations[id]) == KeyOf(s.conversations[id])
    ensures Refreshed(t, c) == Refreshed(s, c)
  {
    hide LeaseFree;
    LeasesIgnoreContents(s, t, KeyOf(c));
  }

  lemma RefreshMakesNoWork(s: Store, c: Conversation)
    ensures HasWork(Refreshed(s, c)) ==> HasWork(c)
    ensures !HasWork(c) ==> Refreshed(s, c) == c
  {
    hide LeaseFree;
    var c' := Recovered(c);
    assert forall i :: 0 <= i < |c.messages| ==> c'.messages[i] == Interrupt(c.messages[i]);
  }

  lemma RecoveredAllOfThem(before: Store, files: Saved, all: seq<Conversation>, current: seq<Conversation>)
    requires RecoveredFirst(before, files, all, |all|) && ListsExactlyWork(before.conversations, before.conversations.Keys, all)
    requires |current| == |all| && forall k :: 0 <= k < |all| ==> current[k] == Refreshed(before, all[k])
    ensures before.(conversations := files) == AllRefreshed(before)
    ensures ListsCurrent(files, current)
    ensures forall w :: (exists k :: 0 <= k < |current| && current[k].active.Some? && current[k].workspace == w) <==> RunsIn(files, w)
  {
    hide Refreshed, HasWork;
    forall id | id in files ensures files[id] == Refreshed(before, before.conversations[id]) {
      RefreshMakesNoWork(before, before.conversations[id]);
      if x :| 0 <= x < |all| && all[x].id == id {
        assert all[x] == before.conversations[id];
      }
    }
    assert files == AllRefreshed(before).conversations;
    forall x | 0 <= x < |all| ensures current[x].id == all[x].id && files[all[x].id] == current[x] {
      RefreshKeepsPlace(before, all[x]);
    }
    forall id | id in files && HasWork(files[id]) ensures exists x :: 0 <= x < |current| && current[x].id == id {
      RefreshMakesNoWork(before, before.conversations[id]);
      var x :| 0 <= x < |all| && all[x].id == id;
      assert current[x].id == id;
    }
    forall w | RunsIn(files, w) ensures exists k :: 0 <= k < |current| && current[k].active.Some? && current[k].workspace == w {
      var id :| id in files && files[id].active.Some? && files[id].workspace == w;
      assert HasWork(files[id]) by { ActiveIsWork(files[id]); }
      var x :| 0 <= x < |current| && current[x].id == id;
    }
  }

  lemma ActiveIsWork(c: Conversation)
    requires c.active.Some?
    ensures HasWork(c)
  {
  }

  // ---------------------------------------------------------------- the candidates of a pass

  /** A queued message of the scanned list: its sequence, the index of its conversation and its id. */
  datatype Candidate = Candidate(sequence: nat, index: nat, message: Id)

  predicate NoLater(a: Candidate, b: Candidate) {
    || a.sequence < b.sequence
    || (a.sequence == b.sequence && (a.index < b.index || (a.index == b.index && a.message <= b.message)))
  }

  lemma CandidatesTotal()
    ensures TotalPreorder(NoLater)
  {
  }

  function CandidateOf(all: seq<Conversation>, x: nat, i: nat): Candidate
    requires x < |all| && i < |all[x].messages|
  {
    var ticket := TicketOf(all[x].messages[i]);
    Candidate(ticket.sequence, x, ticket.id)
  }

  /** d is a queued message that comes before message i of conversation x. */
  ghost predicate IsCandidate(all: seq<Conversation>, d: Candidate, x: nat, i: nat) {
    exists j: nat :: CandidateAt(all, d, j) && (d.index < x || (d.index == x && j < i))
  }

  ghost predicate CandidateAt(all: seq<Conversation>, d: Candidate, j: nat) {
    d.index < |all| && j < |all[d.index].messages| && Waiting(all[d.index].messages[j]) && d == CandidateOf(all, d.index, j)
  }

  lemma OneMoreCandidate(all: seq<Conversation>, had: seq<Candidate>, r: seq<Candidate>, x: nat, i: nat)
    requires x < |all| && i < |all[x].messages|
    requires forall d :: d in had <==> IsCandidate(all, d, x, i)
    requires r == if Waiting(all[x].messages[i]) then had + [CandidateOf(all, x, i)] else had
    ensures forall d :: d in r <==> IsCandidate(all, d, x, i + 1)
  {
    forall d | IsCandidate(all, d, x, i + 1) ensures d in r {
      var j: nat :| CandidateAt(all, d, j) && (d.index < x || (d.index == x && j < i + 1));
      if d.index < x || j < i {
        assert IsCandidate(all, d, x, i);
      }
    }
    forall d | d in r ensures IsCandidate(all, d, x, i + 1) {
      if d in had {
        var j: nat :| CandidateAt(all, d, j) && (d.index < x || (d.index == x && j < i));
      } else {
        assert CandidateAt(all, d, i);
      }
    }
  }

  // ---------------------------------------------------------------- dispatching the candidates

  ghost predicate AboutToAttempt(s: Store, t: Store, busy: set<Workspace>, c: Conversation, i: nat, p: Pass) {
    && Inv(s) && Dispatching(s, t, busy, p) && NamesDistinct(p.attempt)
    && c.id in s.conversations && s.conversations[c.id] == c && i < |c.messages| && c.workspace !in busy
    && Eligible(s.conversations, c.id, i) && Eligible(t.conversations, c.id, i)
  }

  lemma ClaimKeepsItsId(c: Conversation, i: nat, session: Id, reply: Id, now: int)
    requires i < |c.messages|
    ensures Claimed(c, i, session, reply, now).id == c.id
  {
  }

  lemma FindsTheCandidate(s: Store, c: Conversation, i: nat)
    requires Inv(s) && c.id in s.conversations && s.conversations[c.id] == c && i < |c.messages|
    ensures Find(c.messages, c.messages[i].id) == Some(i)
  {
    assert ConversationsSound(s.conversations);
    FindsItself(c.messages, i);
  }

  ghost predicate Handled(current: seq<Conversation>, candidates: seq<Candidate>, k: nat, busy: set<Workspace>)
    requires k <= |candidates|
  {
    forall j :: 0 <= j < k ==> candidates[j].index < |current| && current[candidates[j].index].workspace in busy
  }

  lemma CandidateIsListed(current: seq<Conversation>, d: Candidate)
    requires IsCandidate(current, d, |current|, 0)
    ensures d.index < |current|
  {
  }

  lemma PassBegins(s: Store, busy: set<Workspace>, p: Pass)
    requires NamesUnused(s.conversations, {}, p.attempt, s.issued)
    requires forall w :: w in busy <==> RunsIn(s.conversations, w)
    ensures Dispatching(s, s, busy, p)
  {
    hide PumpedOne, Dispatching;
    forall w ensures w in busy <==> exists id :: id in s.conversations && s.conversations[id].active.Some? && s.conversations[id].workspace == w {
      assert w in busy <==> RunsIn(s.conversations, w);
    }
    DispatchBegins(s, busy, p);
  }

  lemma NamesUnusedStill(s: Store, t: Store, attempt: Id -> Attempt)
    requires NamesUnused(s.conversations, {}, attempt, s.issued) && t == AllRefreshed(s)
    ensures NamesUnused(t.conversations, {}, attempt, t.issued)
  {
    hide LeaseFree, Unused;
    forall id, i | id in t.conversations && 0 <= i < |t.conversations[id].messages|
      ensures Unused(attempt(t.conversations[id].messages[i].id), t.issued)
    {
      RefreshKeepsIds(s, s.conversations[id]);
    }
  }

  lemma RefreshKeepsIds(s: Store, c: Conversation)
    ensures |Refreshed(s, c).messages| == |c.messages|
    ensures forall i :: 0 <= i < |c.messages| ==> Refreshed(s, c).messages[i].id == c.messages[i].id
  {
    hide LeaseFree;
  }

  /** The next candidate of a workspace not yet dealt with is that workspace's least queued message. */
  lemma NextAttempt(s: Store, t: Store, current: seq<Conversation>, candidates: seq<Candidate>, k: nat, busy: set<Workspace>, p: Pass)
    returns (i: nat)
    requires Inv(s) && Dispatching(s, t, busy, p) && NamesDistinct(p.attempt) && ListsCurrent(s.conversations, current)
    requires SortedBy(NoLater, candidates) && forall d :: d in candidates <==> IsCandidate(current, d, |current|, 0)
    requires k < |candidates| && Handled(current, candidates, k, busy)
    requires candidates[k].index < |current| && current[candidates[k].index].workspace !in busy
    ensures var c := current[candidates[k].index];
            AboutToAttempt(s, t, busy, c, i, p) && c.messages[i].id == candidates[k].message
  {
    hide Dispatching, NamesDistinct, Eligible, Inv, HasWork;
    var d := candidates[k];
    var c := current[d.index];
    assert IsCandidate(current, d, |current|, 0);
    i :| CandidateAt(current, d, i);
    forall x, j | x in s.conversations && s.conversations[x].workspace == c.workspace && j in QueuedAt(s.conversations[x])
      ensures SequenceAt(c, i) <= SequenceAt(s.conversations[x], j)
    {
      QueuedIsWork(s.conversations[x], j);
      var y :| 0 <= y < |current| && current[y].id == x;
      var e := CandidateOf(current, y, j);
      assert CandidateAt(current, e, j);
      assert e in candidates;
      var q :| 0 <= q < |candidates| && candidates[q] == e;
      assert q >= k;
      assert NoLater(d, e);
      SequenceOfQueued(s, c, i);
      SequenceOfQueued(s, current[y], j);
    }
    LeastIsEligible(s, t, busy, p, c.id, i);
  }

  lemma QueuedIsWork(c: Conversation, j: nat)
    requires j in QueuedAt(c)
    ensures HasWork(c)
  {
  }

  lemma SequenceOfQueued(s: Store, c: Conversation, i: nat)
    requires Inv(s) && c.id in s.conversations && s.conversations[c.id] == c && i in QueuedAt(c)
    ensures TicketOf(c.messages[i]).sequence == SequenceAt(c, i)
  {
    assert ConversationsSound(s.conversations);
    QueuedIsUser(c, i);
  }

  lemma PassEnds(s: Store, t: Store, current: seq<Conversation>, candidates: seq<Candidate>, busy: set<Workspace>, p: Pass)
    requires Dispatching(s, t, busy, p) && ListsCurrent(s.conversations, current)
    requires forall d :: d in candidates <==> IsCandidate(current, d, |current|, 0)
    requires Handled(current, candidates, |candidates|, busy)
    ensures Pumped(s, t.conversations, t.workers, p)
  {
    hide FilesDispatched, LeasesAgree, NamesUnused, HasWork, Pumped;
    forall id, i | id in s.conversations && i in QueuedAt(s.conversations[id]) ensures s.conversations[id].workspace in busy {
      QueuedIsWork(s.conversations[id], i);
      var y :| 0 <= y < |current| && current[y].id == id;
      var e := CandidateOf(current, y, i);
      assert CandidateAt(current, e, i);
      assert e in candidates;
    }
    DispatchEnds(s, t, busy, p);
  }

  lemma FilesKeepTheirIds(s: Store)
    requires Inv(s)
    ensures forall id :: id in s.conversations ==> s.conversations[id].id == id
  {
    assert ConversationsSound(s.conversations);
  }

  lemma AcceptedMayBeQueued(files: Saved, counter: nat, c: Conversation, accepted: Conversation, request: Id, body: string,
                            length: nat, childMaySend: bool)
    requires SendOutcome(files, counter, c, accepted, request, body, length, childMaySend).Accepted?
    ensures |c.messages| + |QueuedAt(c)| < MAX_TURN_SLOTS && FindRequest(c.messages, request, 0).None?
    ensures |QueuedIn(files, c.workspace)| < MAX_QUEUED_PER_WORKSPACE
  {
  }

  lemma ReserveStep(start: Store, s: Store)
    requires Inv(s) && Reaches(start, s)
    ensures Inv(s.(counter := s.counter + 1)) && Reaches(start, s.(counter := s.counter + 1))
  {
    hide Inv, Reaches;
    ReachesByStep(start, s, Reserve);
    StepKeepsInv(s, Reserve);
  }

  lemma EnqueueStep(start: Store, before: Store, s: Store, id: Id, message: Id, request: Id, body: string, now: int)
    requires Inv(before) && s == before.(counter := before.counter + 1) && Inv(s) && Reaches(start, s) && id in s.conversations
    requires |s.conversations[id].messages| + |QueuedAt(s.conversations[id])| < MAX_TURN_SLOTS
    requires FindRequest(s.conversations[id].messages, request, 0).None?
    requires |QueuedIn(s.conversations, s.conversations[id].workspace)| < MAX_QUEUED_PER_WORKSPACE
    requires message !in s.issued
    ensures Inv(AfterEnqueue(s, id, message, request, body, now)) && Reaches(start, AfterEnqueue(s, id, message, request, body, now))
  {
    assert s.counter !in s.tickets by {
      assert TicketsUnique(before.conversations, before.tickets, before.counter);
    }
    hide Inv, Reaches;
    assert CanEnqueue(s, id, message, request);
    ReachesByStep(start, s, Enqueue(id, message, request, body, now));
    StepKeepsInv(s, Enqueue(id, message, request, body, now));
  }

  // ---------------------------------------------------------------- what a send comes to

  /** No request id, too long, with a NUL, or nothing but white space. */
  ghost predicate IsBadBody(request: Id, body: string) {
    request == 0 || |body| > 16_384 || '\0' in body || forall i :: 0 <= i < |body| ==> Space(body[i])
  }

  lemma BodyIsValid(request: Id, body: string)
    ensures ValidBody(request, body) <==> !IsBadBody(request, body)
  {
  }

  ghost predicate IsBadChange(message: Id, request: Id, expected: string, body: Option<string>) {
    message == 0 || IsBadBody(request, expected) || (body.Some? && IsBadBody(request, body.value))
  }

  lemma ChangeIsValid(message: Id, request: Id, expected: string, body: Option<string>)
    ensures ValidMutation(message, request, expected, body) <==> !IsBadChange(message, request, expected, body)
  {
    hide ValidBody, IsBadBody;
    BodyIsValid(request, expected);
    if body.Some? { BodyIsValid(request, body.value); }
  }

  /** The request is on record, under this text. */
  ghost predicate IsOnRecord(c: Conversation, request: Id, text: string) {
    exists k :: 0 <= k < |c.messages| && c.messages[k].role.User? && c.messages[k].request == Some(request) && Submitted(c.messages[k]) == text
  }

  /** There is room for one more queued request and its reply, in the conversation, in the workspace and in the numbering. */
  ghost predicate HasRoomForOne(files: Saved, counter: nat, c: Conversation) {
    && |c.messages| + |QueuedAt(c)| < 254 && |files| <= 4096 && |QueuedIn(files, c.workspace)| < 64
    && counter < 9_007_199_254_740_991
  }

  /**
   A request is accepted if and only if it is new, its work set allows it and there is room for it and for its turn;
   it is acknowledged again exactly under the text that it was sent with.
   */
  ghost predicate Answered(s: Store, c: Conversation, r: Sent, request: Id, text: string, message: Id, now: int,
                           childMaySend: bool, size: Conversation -> nat)
  {
    var files := s.conversations[c.id := c];
    && r != SendFailed(Invalid) && r != SendFailed(NotFound) && !IsBadBody(request, text)
    && (r.AlreadySent? <==> IsOnRecord(c, request, text) && |files| <= 4096)
    && (r == SendFailed(Failure.Conflict) <==>
          if exists other :: IsOnRecord(c, request, other) then !IsOnRecord(c, request, text) else !childMaySend)
    && (r.Accepted? <==>
          && !(exists other :: IsOnRecord(c, request, other)) && childMaySend && HasRoomForOne(files, s.counter, c)
          && exists c' :: HasNewRequest(c, c', message, request, text, s.counter + 1, now) && size(c') <= TURN_CAPACITY)
  }

  /** Only an accepted request changes anything, but to recover a turn that nobody owns. */
  ghost predicate SendDid(s: Store, r: Sent, before: Conversation, after: Conversation, request: Id, text: string, message: Id, now: int,
                          childMaySend: bool, size: Conversation -> nat)
  {
    exists c :: ReadAs(s, before, c) && Answered(s, c, r, request, text, message, now, childMaySend, size)
                && (if r.Accepted? then HasNewRequest(c, after, message, request, text, s.counter + 1, now) else after == c)
  }

  lemma SendMeans(s: Store, r: Sent, before: Conversation, c: Conversation, request: Id, text: string, message: Id, now: int,
                  childMaySend: bool, size: Conversation -> nat)
    requires ReadAs(s, before, c) && Sound(c) && c.id == before.id && !IsBadBody(request, text)
    requires var accepted := Enqueued(c, NewRequest(message, request, text, s.counter + 1, now));
             r == SendOutcome(s.conversations[before.id := c], s.counter, c, accepted, request, text, size(accepted), childMaySend)
    ensures var accepted := Enqueued(c, NewRequest(message, request, text, s.counter + 1, now));
            SendDid(s, r, before, if r.Accepted? then accepted else c, request, text, message, now, childMaySend, size)
  {
    hide Sound, ReadAs, QueuedIn, QueuedAt, Enqueued, NewRequest, Submitted, HasNewRequest;
    var accepted := Enqueued(c, NewRequest(message, request, text, s.counter + 1, now));
    EnqueuedHasRequest(c, message, request, text, s.counter + 1, now);
    RecordFound(c, request);
    var sequence := s.counter + 1;
    forall c' | HasNewRequest(c, c', message, request, text, sequence, now) ensures c' == accepted {
      OnlyOneNewRequest(c, c', accepted, message, request, text, sequence, now);
    }
    hide FindRequest;
  }

  lemma OnlyOneNewRequest(c: Conversation, a: Conversation, b: Conversation, message: Id, request: Id, text: string, sequence: nat, now: int)
    requires HasNewRequest(c, a, message, request, text, sequence, now) && HasNewRequest(c, b, message, request, text, sequence, now)
    ensures a == b
  {
    var n := |c.messages|;
    assert a.messages[n] == b.messages[n];
    assert a.messages == b.messages;
  }

  lemma RecordFound(c: Conversation, request: Id)
    requires Sound(c)
    ensures var f := FindRequest(c.messages, request, 0);
            && (f.None? <==> !exists text :: IsOnRecord(c, request, text))
            && (f.Some? ==> f.value < |c.messages| && forall text :: IsOnRecord(c, request, text) <==> Submitted(c.messages[f.value]) == text)
  {
    hide Submitted;
    var f := FindRequest(c.messages, request, 0);
    if f.Some? {
      assert IsOnRecord(c, request, Submitted(c.messages[f.value]));
    }
    forall text | IsOnRecord(c, request, text) ensures f.Some? {
      var k :| 0 <= k < |c.messages| && c.messages[k].role.User? && c.messages[k].request == Some(request);
      assert Asked(c.messages[k], request);
    }
  }

  // ---------------------------------------------------------------- what Send decides

  function Submitted(m: Message): string {
    if m.submitted.Some? then m.submitted.value else m.body
  }

  ghost function SendOutcome(files: Saved, counter: nat, c: Conversation, accepted: Conversation, request: Id, body: string,
                             length: nat, childMaySend: bool): Sent
  {
    match FindRequest(c.messages, request, 0)
    case Some(k) =>
      if Submitted(c.messages[k]) != body then SendFailed(Failure.Conflict)
      else if |files| > MAX_CONVERSATIONS then SendFailed(Unavailable)
      else AlreadySent
    case None =>
      if !childMaySend then SendFailed(Failure.Conflict)
      else if |c.messages| + |QueuedAt(c)| >= MAX_TURN_SLOTS then SendFailed(Failure.Limit)
      else if |files| > MAX_CONVERSATIONS then SendFailed(Unavailable)
      else if |QueuedIn(files, c.workspace)| >= MAX_QUEUED_PER_WORKSPACE then SendFailed(QueueFull)
      else if counter + 1 > MAX_SEQUENCE then SendFailed(StorageFull)
      else if length > TURN_CAPACITY then SendFailed(Failure.Limit)
      else Accepted
  }

  /**
   Once a request was accepted, sending its id again at any later point of the run is answered from what is
   stored, whatever happened to the message since: the original body is acknowledged, any other is refused.
   */
  lemma ResendIsRecognised(states: seq<Store>, steps: seq<Step>, i: nat, j: nat, again: string,
                           accepted: Conversation, length: nat, childMaySend: bool)
    requires History(states, steps) && i < j < |states| && steps[i].Enqueue?
    ensures steps[i].id in states[j].conversations
    ensures var s := states[j];
            SendOutcome(s.conversations, s.counter, Refreshed(s, s.conversations[steps[i].id]), accepted, steps[i].request, again, length, childMaySend)
            == if again != steps[i].body then SendFailed(Failure.Conflict)
               else if |s.conversations| > MAX_CONVERSATIONS then SendFailed(Unavailable)
               else AlreadySent
  {
    hide Inv, Apply, LeaseFree, Enabled;
    HistoryIsSound(states, steps);
    var id, s := steps[i].id, states[j];
    RunStep(states, steps, i);
    EnqueueIssuesATicket(states[i], steps[i]);
    var a := |states[i].conversations[id].messages|;
    EnqueuedStays(states, steps, i, j, a);
    InvAlongRun(states, steps, j);
    StoredIsSound(s, id);
    RecoveredIsSound(s.conversations[id]);
    var c := Refreshed(s, s.conversations[id]);
    assert c.messages[a].role.User? && c.messages[a].request == Some(steps[i].request);
    assert c.messages[a].submitted == Some(steps[i].body);
    OnlyOneAsks(c, a, steps[i].request);
  }

  lemma StoredIsSound(s: Store, id: Id)
    requires Inv(s) && id in s.conversations
    ensures Sound(s.conversations[id])
  {
    assert ConversationsSound(s.conversations);
  }

  lemma OnlyOneAsks(c: Conversation, a: nat, request: Id)
    requires Sound(c) && a < |c.messages| && Asked(c.messages[a], request)
    ensures FindRequest(c.messages, request, 0) == Some(a)
  {
  }

  // ---------------------------------------------------------------- counting a workspace's queue

  ghost function SlotsOf(c: Conversation): set<Slot> {
    set i | i in QueuedAt(c) :: Slot(c.id, i)
  }

  ghost function QueuedInFirst(all: seq<Conversation>, k: nat, w: Workspace): set<Slot>
    requires k <= |all|
  {
    if k == 0 then {} else QueuedInFirst(all, k - 1, w) + (if all[k - 1].workspace == w then SlotsOf(all[k - 1]) else {})
  }

  lemma {:induction false} IndexedSize(id: Id, indexes: set<nat>)
    ensures |set i | i in indexes :: Slot(id, i)| == |indexes|
  {
    var slots := set i | i in indexes :: Slot(id, i);
    if indexes != {} {
      var k :| k in indexes;
      IndexedSize(id, indexes - {k});
      assert slots == (set i | i in indexes - {k} :: Slot(id, i)) + {Slot(id, k)};
    }
  }

  lemma OwnSlots(c: Conversation)
    ensures |SlotsOf(c)| == |QueuedAt(c)|
  {
    IndexedSize(c.id, QueuedAt(c));
  }

  lemma {:induction false} FirstSlotsComeFromFirst(all: seq<Conversation>, k: nat, w: Workspace, slot: Slot)
    requires k <= |all|
    ensures slot in QueuedInFirst(all, k, w)
            <==> exists x :: 0 <= x < k && all[x].workspace == w && slot in SlotsOf(all[x])
  {
    if k > 0 { FirstSlotsComeFromFirst(all, k - 1, w, slot); }
  }

  lemma NothingCounted(all: seq<Conversation>, w: Workspace)
    ensures QueuedInFirst(all, 0, w) == {}
  {
  }

  lemma SlotsOfOneMore(files: Saved, all: seq<Conversation>, k: nat, w: Workspace)
    requires k < |all| && ListsExactlyWork(files, files.Keys, all)
    ensures |QueuedInFirst(all, k + 1, w)| == |QueuedInFirst(all, k, w)| + (if all[k].workspace == w then |QueuedAt(all[k])| else 0)
  {
    hide QueuedAt, HasWork, SlotsOf;
    OwnSlots(all[k]);
    SlotsAreDisjoint(all, k, w);
    assert QueuedInFirst(all, k, w) + {} == QueuedInFirst(all, k, w);
  }

  lemma SlotsAreDisjoint(all: seq<Conversation>, k: nat, w: Workspace)
    requires k < |all| && forall x, y :: 0 <= x < y < |all| ==> all[x].id != all[y].id
    ensures |QueuedInFirst(all, k, w) + SlotsOf(all[k])| == |QueuedInFirst(all, k, w)| + |SlotsOf(all[k])|
  {
    forall slot | slot in SlotsOf(all[k]) ensures slot !in QueuedInFirst(all, k, w) {
      FirstSlotsComeFromFirst(all, k, w, slot);
    }
    DisjointSizes(QueuedInFirst(all, k, w), SlotsOf(all[k]));
  }

  lemma DisjointSizes(a: set<Slot>, b: set<Slot>)
    requires a !! b
    ensures |a + b| == |a| + |b|
  {
  }

  lemma ScannedSlotsAreAll(files: Saved, all: seq<Conversation>, w: Workspace)
    requires ListsExactlyWork(files, files.Keys, all)
    ensures QueuedInFirst(all, |all|, w) == QueuedIn(files, w)
  {
    forall slot ensures slot in QueuedInFirst(all, |all|, w) <==> slot in QueuedIn(files, w) {
      FirstSlotsComeFromFirst(all, |all|, w, slot);
      if slot in QueuedIn(files, w) {
        assert slot.conversation in files && slot.index in QueuedAt(files[slot.conversation]);
        assert HasWork(files[slot.conversation]);
        var x :| 0 <= x < |all| && all[x].id == slot.conversation;
        assert slot in SlotsOf(all[x]);
      }
    }
  }

  // ---------------------------------------------------------------- two hosts on one disk

  lemma QueuingMakesWork(c: Conversation, m: Message)
    requires Waiting(m)
    ensures HasWork(Enqueued(c, m))
  {
    assert Enqueued(c, m).messages[|c.messages|] == m;
  }

  lemma WorkIsListed(files: Saved, pending: seq<Conversation>, id: Id)
    requires ListsExactlyWork(files, files.Keys, pending) && id in files && HasWork(files[id])
    ensures exists x :: 0 <= x < |pending| && pending[x] == files[id]
  {
    var x :| 0 <= x < |pending| && pending[x].id == id;
    assert pending[x] == files[id];
  }

  /**
   A message that another host queues is not missed: although this host may have cached that the conversation had
   nothing to do, its next scan lists the conversation, and lists everything else that has work as well.
   */
  method ForeignMessageIsSeen(here: ConversationStore, there: ConversationStore, id: Id, request: Id, body: string, message: Id, now: int)
    returns (sent: Sent, listed: bool, pending: seq<Conversation>)
    requires here != there && here.disk == there.disk && here.disk.Valid() && here.CacheHonest() && there.CacheHonest()
    requires message !in here.disk.issued
    modifies here.disk, here`workCache, there`workCache
    ensures here.disk.Valid() && here.CacheHonest() && there.CacheHonest()
    ensures listed ==> ListsExactlyWork(here.disk.files, here.disk.files.Keys, pending)
    ensures listed && sent.Accepted? ==>
              id in here.disk.files && exists x :: 0 <= x < |pending| && pending[x] == here.disk.files[id]
  {
    hide Inv, Reaches, HasWork, Honest, Enqueued, QueuedIn, QueuedAt, SendOutcome, FindRequest, LeaseFree, Disk.StampsTell, ListsExactlyWork,
         ValidBody, Recovered;
    FilesKeepTheirIds(here.disk.Model());
    var _, _ := here.WorkConversations();
    ghost var before := here.disk.Model();
    ghost var seen := here.disk.seen;
    sent := there.Send(id, request, body, message, now, true);
    RememberingStaysHonest(here.workCache, seen, here.disk.seen);
    FilesKeepTheirIds(here.disk.Model());
    listed, pending := here.WorkConversations();
    if listed && sent.Accepted? {
      var c := Refreshed(before, before.conversations[id]);
      QueuingMakesWork(c, NewRequest(message, request, body, before.counter + 1, now));
      WorkIsListed(here.disk.files, pending, id);
    }
  }
}
