/**
 Where a turn's receipt and the exact bytes of its captured files are kept: a directory of
 blobs named by their digest, and one record that is meant to be written once.
 */
module TurnStorage {
  import opened Options
  import opened TurnReceipt

  const MAX_WORKTREE_SOURCE_BYTES := 2 * 1024 * 1024

  datatype StoredTurn = StoredTurn(state: State, recovered: bool, completed: Option<int>, changes: Changes,
                                   before: Option<Capture>, after: Option<Capture>)

  /** What the system does to one finish: which accesses fail, and what the worktree is found to hold. */
  datatype Environment = Environment(
    existsFails: bool,
    readFails: bool,
    capture: Option<Capture>,      // none if the target moved or could not be captured
    blobFails: Path -> bool,
    saveFails: bool,
    rereadFails: bool,
    resaveFails: bool,
    now: int)

  /** A capture as it is taken: contents are those that the digests name. */
  ghost predicate Taken(c: Capture, hash: Bytes -> Digest) {
    forall p :: p in c.files ==>
      && (c.files[p].sha.Some? <==> c.files[p].content.Some?)
      && (c.files[p].sha.Some? ==> c.files[p].sha.value == hash(c.files[p].content.value) && |c.files[p].content.value| <= MAX_WORKTREE_SOURCE_BYTES)
  }

  /** The record keeps digests, not contents. */
  function Stripped(c: Capture): (r: Capture)
    ensures forall p :: SideOf(r, p) == SideOf(c, p)
  {
    c.(files := map p | p in c.files :: c.files[p].(content := None))
  }

  function ReadBlob(blobs: map<Digest, Bytes>, d: Digest, hash: Bytes -> Digest): Option<Bytes> {
    if d in blobs && |blobs[d]| <= MAX_WORKTREE_SOURCE_BYTES && hash(blobs[d]) == d then Some(blobs[d]) else None
  }

  /** Every content of the capture, as it was taken, can be read back under its digest. */
  ghost predicate Kept(c: Capture, blobs: map<Digest, Bytes>, hash: Bytes -> Digest) {
    forall p :: p in c.files && c.files[p].sha.Some? ==>
      c.files[p].content.Some? && ReadBlob(blobs, c.files[p].sha.value, hash) == c.files[p].content
  }

  ghost predicate OnlyGrows(a: map<Digest, Bytes>, b: map<Digest, Bytes>) {
    forall d :: d in a ==> d in b && b[d] == a[d]
  }

  /** A stored capture is one that was taken, without the contents, which the blobs keep. */
  ghost predicate Stored(stored: Option<Capture>, taken: Option<Capture>, blobs: map<Digest, Bytes>, hash: Bytes -> Digest) {
    stored.Some? ==> taken.Some? && stored.value == Stripped(taken.value) && Captured(taken.value) && Kept(taken.value, blobs, hash)
  }

  /** Some content of the capture has this digest. */
  ghost predicate Names(c: Capture, d: Digest) {
    exists p :: p in c.files && c.files[p].content.Some? && c.files[p].sha == Some(d)
  }

  /** No write fails, and no digest stands for two contents. */
  ghost predicate Saveable(c: Capture, fails: Path -> bool, blobs: map<Digest, Bytes>) {
    forall p :: p in c.files && c.files[p].content.Some? ==>
      && !fails(p)
      && (c.files[p].sha.Some? && c.files[p].sha.value in blobs ==> blobs[c.files[p].sha.value] == c.files[p].content.value)
      && forall q :: q in c.files && c.files[q].content.Some? && c.files[q].sha == c.files[p].sha ==> c.files[q].content == c.files[p].content
  }

  predicate IsSaved(file: File, blobs: map<Digest, Bytes>, hash: Bytes -> Digest) {
    file.sha.Some? && ReadBlob(blobs, file.sha.value, hash) == file.content
  }

  lemma FileIsSaveable(c: Capture, p: Path, fails: Path -> bool, blobs: map<Digest, Bytes>, hash: Bytes -> Digest)
    requires Taken(c, hash) && p in c.files && c.files[p].content.Some?
    ensures var file := c.files[p];
            && file.sha.Some? && file.sha.value == hash(file.content.value) && |file.content.value| <= MAX_WORKTREE_SOURCE_BYTES
            && (Saveable(c, fails, blobs) ==> !fails(p) && (file.sha.value in blobs ==> blobs[file.sha.value] == file.content.value))
  {
  }

  lemma SaveableStays(c: Capture, p: Path, fails: Path -> bool, blobs: map<Digest, Bytes>)
    requires p in c.files && c.files[p].content.Some? && c.files[p].sha.Some?
    ensures Saveable(c, fails, blobs) ==> Saveable(c, fails, blobs[c.files[p].sha.value := c.files[p].content.value])
  {
  }

  lemma TakenHasContents(c: Capture, hash: Bytes -> Digest)
    requires Taken(c, hash)
    ensures forall p :: p in c.files && c.files[p].sha.Some? ==> c.files[p].content.Some?
  {
  }

  lemma StoredStays(stored: Option<Capture>, taken: Option<Capture>, a: map<Digest, Bytes>, b: map<Digest, Bytes>, hash: Bytes -> Digest)
    requires Stored(stored, taken, a, hash) && OnlyGrows(a, b)
    ensures Stored(stored, taken, b, hash)
  {
  }

  /** What the system does to one begin: setting up the directory, capturing, and saving the record. */
  datatype Beginning = Beginning(setupFails: bool, capture: Option<Capture>, blobFails: Path -> bool, saveFails: bool)

  ghost predicate Takes(capture: Option<Capture>, hash: Bytes -> Digest) {
    capture.Some? ==> Captured(capture.value) && Taken(capture.value, hash)
  }

  class TurnDirectory {
    const hash: Bytes -> Digest
    var blobs: map<Digest, Bytes>
    var record: Option<StoredTurn>
    ghost var takenBefore: Option<Capture>   // the captures of the record, as they were taken
    ghost var takenAfter: Option<Capture>

    constructor (hash: Bytes -> Digest)
      ensures Valid() && this.hash == hash && blobs == map[] && record.None?
    {
      this.hash, blobs, record, takenBefore, takenAfter := hash, map[], None, None, None;
    }

    /** The record speaks of captures whose bytes the blobs hold. */
    ghost predicate Valid()
      reads this
    {
      record.Some? ==>
        Stored(record.value.before, takenBefore, blobs, hash) && Stored(record.value.after, takenAfter, blobs, hash)
    }

    /** Saves the contents under their digests. A blob that is there already is checked, never replaced. */
    method PersistCapture(c: Capture, fails: Path -> bool) returns (saved: Option<Capture>)
      requires Taken(c, hash)
      modifies this`blobs
      ensures OnlyGrows(old(blobs), blobs)
      ensures forall d :: d in blobs && d !in old(blobs) ==> Names(c, d)
      ensures saved.Some? ==> saved.value == Stripped(c) && Kept(c, blobs, hash)
      ensures Saveable(c, fails, old(blobs)) ==> saved.Some?
    {
      hide Saveable, Taken;
      var left := c.files.Keys;
      while left != {}
        invariant left <= c.files.Keys && OnlyGrows(old(blobs), blobs)
        invariant forall d :: d in blobs && d !in old(blobs) ==> Names(c, d)
        invariant Saveable(c, fails, old(blobs)) ==> Saveable(c, fails, blobs)
        invariant forall p :: p in c.files && p !in left && c.files[p].content.Some? ==> IsSaved(c.files[p], blobs, hash)
        decreases |left|
      {
        var p :| p in left;
        left := left - {p};
        var file := c.files[p];
        if file.content.Some? {
          FileIsSaveable(c, p, fails, blobs, hash);
          if fails(p) { return None; }
          var d := file.sha.value;
          if d in blobs {
            if ReadBlob(blobs, d, hash) != file.content { return None; }
          } else {
            SaveableStays(c, p, fails, blobs);
            blobs := blobs[d := file.content.value];
          }
        }
      }
      assert Kept(c, blobs, hash) by { TakenHasContents(c, hash); }
      saved := Some(Stripped(c));
    }

    /** Before the agent runs: the before state is captured and the open record saved. */
    method BeginTurnCapture(env: Beginning) returns (ok: bool)
      requires Valid() && Takes(env.capture, hash)
      modifies this
      ensures Valid() && OnlyGrows(old(blobs), blobs)
      ensures ok ==> record == Some(Begun(env)) && takenBefore == env.capture
      ensures ok ==>
                var t := record.value;
                && t.state == (if env.capture.Some? then Capturing else Unavailable) && t.completed.None? && !t.recovered && t.after.None?
                && t.changes.files == [] && t.changes.patch == "" && t.changes.omitted == 0 && !t.changes.truncated
                && (t.before.Some? <==> env.capture.Some?)
      ensures !ok ==> record == old(record)
      ensures env.setupFails || env.saveFails ==> !ok
      ensures forall d :: d in blobs && d !in old(blobs) ==> env.capture.Some? && Names(env.capture.value, d)
      ensures !env.setupFails && !env.saveFails && (env.capture.Some? ==> Saveable(env.capture.value, env.blobFails, old(blobs))) ==> ok
    {
      hide Stored, Kept, Taken, Names, Saveable;
      if env.setupFails { return false; }
      ghost var had := blobs;
      var before := None;
      if env.capture.Some? {
        before := PersistCapture(env.capture.value, env.blobFails);
        StaysValid(had);
        if before.None? { return false; }
      }
      if env.saveFails { return false; }
      record := Some(StoredTurn(if before.Some? then Capturing else Unavailable, false, None, NOTHING, before, None));
      takenBefore, takenAfter := env.capture, None;
      assert Stored(before, env.capture, blobs, hash) by { PersistedIsStored(before, env.capture, blobs); }
      assert Stored(None, None, blobs, hash) by { PersistedIsStored(None, None, blobs); }
      ok := true;
    }

    lemma PersistedIsStored(before: Option<Capture>, taken: Option<Capture>, blobs: map<Digest, Bytes>)
      requires before.Some? ==> taken.Some? && before.value == Stripped(taken.value) && Captured(taken.value) && Kept(taken.value, blobs, hash)
      ensures Stored(before, taken, blobs, hash)
    {
    }

    twostate lemma StaysValid(had: map<Digest, Bytes>)
      requires old(Valid()) && had == old(blobs) && OnlyGrows(had, blobs)
      requires record == old(record) && takenBefore == old(takenBefore) && takenAfter == old(takenAfter)
      ensures Valid()
    {
      if record.Some? {
        StoredStays(record.value.before, takenBefore, had, blobs, hash);
        StoredStays(record.value.after, takenAfter, had, blobs, hash);
      }
    }

    /** The end of a turn as planned; nothing is recorded if something fails on the way. */
    method FinishInner(recovered: bool, differ: Differ, env: Environment) returns (ok: bool)
      requires Valid() && Takes(env.capture, hash)
      modifies this
      ensures Valid() && OnlyGrows(old(blobs), blobs) && takenBefore == old(takenBefore)
      ensures !ok ==> record == old(record)
      ensures env.existsFails || (old(record).Some? && env.readFails) ==> !ok
      ensures !ok && old(record).Some? && old(record).value.completed.Some? ==> env.existsFails || env.readFails
      ensures ok && (old(record).None? || old(record).value.completed.Some?) ==> record == old(record)
      ensures old(record).Some? && EndsWell(old(record).value, differ, env, old(blobs)) ==> ok
      ensures ok && old(record).Some? && old(record).value.completed.None? ==>
                record.Some? && EndedRight(old(record).value, record.value, recovered, differ, env)
                && takenAfter == if env.capture.Some? then env.capture else old(takenAfter)
    {
      hide Stored, Kept, Taken, Built, Names, Saveable;
      if env.existsFails { return false; }
      if record.None? { return true; }
      if env.readFails { return false; }
      var stored := record.value;
      if stored.completed.Some? { return true; }
      stored := stored.(recovered := recovered, completed := Some(env.now));
      ghost var had, taken := blobs, takenAfter;
      if env.capture.Some? {
        var saved := PersistCapture(env.capture.value, env.blobFails);
        StaysValid(had);
        if saved.None? { return false; }
        stored := stored.(after := saved);
        taken := env.capture;
        assert Stored(saved, taken, blobs, hash) by { PersistedIsStored(saved, taken, blobs); }
      }
      if stored.before.Some? && stored.after.Some? {
        var changes, state := BuildChanges(stored.before.value, stored.after.value, differ);
        if changes.None? { return false; }
        stored := stored.(changes := changes.value, state := state);
      } else {
        stored := stored.(state := Unavailable);
      }
      if env.saveFails { return false; }
      record := Some(stored);
      takenAfter := taken;
      ok := true;
    }

    /** Ends the turn; if that fails, tries to record that there is no result. */
    method FinishTurnCapture(recovered: bool, differ: Differ, env: Environment) returns (ok: bool)
      requires Valid() && Takes(env.capture, hash)
      modifies this
      ensures Valid() && OnlyGrows(old(blobs), blobs) && takenBefore == old(takenBefore)
      ensures old(record).Some? && old(record).value.completed.Some? ==>
                record == if Overwrites(env) then Some(GivenUp(old(record).value, env.now)) else old(record)
      ensures old(record).None? ==> record.None?
      ensures old(record).Some? && old(record).value.completed.None? && ok ==>
                record.Some? && EndedRight(old(record).value, record.value, recovered, differ, env)
                && takenAfter == if env.capture.Some? then env.capture else old(takenAfter)
      ensures old(record).Some? && old(record).value.completed.None? && !ok ==>
                record == if env.rereadFails || env.resaveFails then old(record) else Some(GivenUp(old(record).value, env.now))
      ensures ok ==> !env.existsFails && (old(record).Some? ==> !env.readFails)
      ensures old(record).Some? && EndsWell(old(record).value, differ, env, old(blobs)) ==> ok
    {
      hide Stored, EndedRight, EndsWell;
      ok := FinishInner(recovered, differ, env);
      if !ok {
        if record.Some? && !env.rereadFails {
          var stored := record.value.(state := Unavailable, completed := Some(env.now));
          if !env.resaveFails {
            record := Some(stored);
          }
        }
      }
    }

    /**
     A whole turn in a directory: whenever its receipt ends up ready, the bytes of every listed file before and after
     the turn are those that were captured, read back from the blobs.
     */
    method CaptureTurn(begin: Beginning, recovered: bool, differ: Differ, end: Environment) returns (receipt: Option<StoredTurn>)
      requires Valid() && record.None? && Takes(begin.capture, hash) && Takes(end.capture, hash)
      modifies this
      ensures Valid() && receipt == record
      ensures receipt.Some? && receipt.value.state.Ready? ==>
                && begin.capture.Some? && end.capture.Some?
                && Complete(begin.capture.value, end.capture.value, receipt.value.changes)
                && forall i :: 0 <= i < |receipt.value.changes.files| ==>
                     HasItsBytes(receipt.value.changes.files[i], begin.capture.value, end.capture.value, blobs, hash)
    {
      hide Stored, Kept, Taken, Built, Complete, HasItsBytes;
      var begun := BeginTurnCapture(begin);
      if begun {
        var _ := FinishTurnCapture(recovered, differ, end);
        if record.value.state.Ready? {
          EndedTurnHasItsBytes(begin, recovered, differ, end, record.value, blobs, hash);
        }
      }
      receipt := record;
    }
  }

  /** The record of a turn that has begun. */
  function Begun(env: Beginning): StoredTurn {
    match env.capture
    case None => StoredTurn(Unavailable, false, None, NOTHING, None, None)
    case Some(c) => StoredTurn(Capturing, false, None, NOTHING, Some(Stripped(c)), None)
  }

  function GivenUp(t: StoredTurn, now: int): StoredTurn {
    t.(state := Unavailable, completed := Some(now))
  }

  /** The first look at the record fails, but the second one and the write after it do not. */
  predicate Overwrites(env: Environment) {
    (env.existsFails || env.readFails) && !env.rereadFails && !env.resaveFails
  }

  /** No access of the finish fails and the diff program answers. */
  ghost predicate EndsWell(t: StoredTurn, differ: Differ, env: Environment, blobs: map<Digest, Bytes>) {
    && !env.existsFails && !env.readFails && !env.saveFails
    && (env.capture.Some? ==> Saveable(env.capture.value, env.blobFails, blobs))
    && var after := if env.capture.Some? then Some(Stripped(env.capture.value)) else t.after;
       (t.before.Some? && after.Some? ==> Built(t.before.value, after.value, differ).Some?)
  }

  /** What a turn's record says once it has ended. */
  ghost predicate EndedRight(before: StoredTurn, after: StoredTurn, recovered: bool, differ: Differ, env: Environment) {
    && after.completed == Some(env.now) && after.recovered == recovered && after.before == before.before
    && after.after == (if env.capture.Some? then Some(Stripped(env.capture.value)) else before.after)
    && (if after.before.Some? && after.after.Some?
        then Built(after.before.value, after.after.value, differ) == Some(after.changes)
             && after.state == StateOf(after.before.value, after.after.value, after.changes)
        else after.state == Unavailable && after.changes == before.changes)
  }

  function ContentOf(c: Capture, p: Path): Option<Bytes> {
    if p in c.files then c.files[p].content else None
  }

  function Readable(d: Option<Digest>, blobs: map<Digest, Bytes>, hash: Bytes -> Digest): Option<Bytes> {
    if d.Some? then ReadBlob(blobs, d.value, hash) else None
  }

  /** What the blobs hold for a listed file, before and after, is what was captured; no bytes for a file that was not there. */
  ghost predicate HasItsBytes(f: Change, before: Capture, after: Capture, blobs: map<Digest, Bytes>, hash: Bytes -> Digest) {
    && Readable(f.before, blobs, hash) == ContentOf(before, f.path) && (f.before.Some? <==> ContentOf(before, f.path).Some?)
    && Readable(f.after, blobs, hash) == ContentOf(after, f.path) && (f.after.Some? <==> ContentOf(after, f.path).Some?)
  }

  lemma StrippedIsCaptured(c: Capture)
    requires Captured(c)
    ensures Captured(Stripped(c))
  {
    assert Stripped(c).files.Keys == c.files.Keys;
    assert |Stripped(c).files| == |Stripped(c).files.Keys| == |c.files.Keys| == |c.files|;
  }

  lemma SideHasItsBytes(c: Capture, p: Path, blobs: map<Digest, Bytes>, hash: Bytes -> Digest)
    requires Taken(c, hash) && Kept(c, blobs, hash)
    ensures var d := SideOf(Stripped(c), p).sha; Readable(d, blobs, hash) == ContentOf(c, p) && (d.Some? <==> ContentOf(c, p).Some?)
  {
  }

  /** A ready receipt lists exactly the paths of the two captures that differ, and every listed file has its bytes. */
  lemma ReadyBytesAreCaptured(before: Capture, after: Capture, changes: Changes, blobs: map<Digest, Bytes>, hash: Bytes -> Digest, differ: Differ)
    requires Captured(before) && Captured(after) && Taken(before, hash) && Taken(after, hash)
    requires Kept(before, blobs, hash) && Kept(after, blobs, hash)
    requires Built(Stripped(before), Stripped(after), differ) == Some(changes) && StateOf(Stripped(before), Stripped(after), changes).Ready?
    ensures Complete(before, after, changes)
    ensures forall i :: 0 <= i < |changes.files| ==> HasItsBytes(changes.files[i], before, after, blobs, hash)
  {
    hide Built, StateOf, Kept, Taken, Captured, Complete;
    StrippedIsCaptured(before);
    StrippedIsCaptured(after);
    ReadyIsComplete(Stripped(before), Stripped(after), differ);
    StrippedIsComplete(before, after, changes);
    forall i | 0 <= i < |changes.files| ensures HasItsBytes(changes.files[i], before, after, blobs, hash) {
      var p := changes.files[i].path;
      ListedAsItIs(before, after, changes, i);
      SideHasItsBytes(before, p, blobs, hash);
      SideHasItsBytes(after, p, blobs, hash);
    }
  }

  lemma ListedAsItIs(before: Capture, after: Capture, changes: Changes, i: nat)
    requires Complete(before, after, changes) && i < |changes.files|
    ensures var f := changes.files[i];
            f.before == SideOf(Stripped(before), f.path).sha && f.after == SideOf(Stripped(after), f.path).sha
  {
    assert changes.files[i] == ChangeOf(before, after, changes.files[i].path);
  }

  /** Completeness does not look at contents. */
  lemma StrippedIsComplete(before: Capture, after: Capture, changes: Changes)
    requires Complete(Stripped(before), Stripped(after), changes)
    ensures Complete(before, after, changes)
  {
    forall p ensures ChangeOf(Stripped(before), Stripped(after), p) == ChangeOf(before, after, p) {
    }
  }

  lemma EndedTurnHasItsBytes(begin: Beginning, recovered: bool, differ: Differ, end: Environment, t: StoredTurn,
                             blobs: map<Digest, Bytes>, hash: Bytes -> Digest)
    requires Takes(begin.capture, hash) && Takes(end.capture, hash) && t.state.Ready?
    requires EndedRight(Begun(begin), t, recovered, differ, end)
    requires Stored(t.before, begin.capture, blobs, hash) && (end.capture.Some? ==> Stored(t.after, end.capture, blobs, hash))
    ensures begin.capture.Some? && end.capture.Some? && Complete(begin.capture.value, end.capture.value, t.changes)
    ensures forall i :: 0 <= i < |t.changes.files| ==>
              HasItsBytes(t.changes.files[i], begin.capture.value, end.capture.value, blobs, hash)
  {
    hide Built, Complete, HasItsBytes, Taken, Kept;
    ReadyBytesAreCaptured(begin.capture.value, end.capture.value, t.changes, blobs, hash, differ);
  }

  const EMPTY_TREE := Capture(map[], 0, true)
  const ONE_FILE := EMPTY_TREE.(files := map[0 := File(Some(1), Some(420), true, false, false, Some([65]))])

  function OnlyOne(b: Bytes): Digest {
    if b == [65] then 1 else 0
  }

  lemma OneFileIsReady(differ: Differ)
    ensures var r := Built(EMPTY_TREE, Stripped(ONE_FILE), differ);
            r.Some? && r.value.files == [ChangeOf(EMPTY_TREE, ONE_FILE, 0)] && StateOf(EMPTY_TREE, Stripped(ONE_FILE), r.value).Ready?
  {
    hide Ordered, Scan, Visit;
    var after := Stripped(ONE_FILE);
    assert EMPTY_TREE.files.Keys + after.files.Keys == {0};
    OrderedIsAscending({0});
    assert AllPaths(EMPTY_TREE, after) == [0];
    OneFileIsVisited(differ);
  }

  lemma OneFileIsVisited(differ: Differ)
    ensures var r := Scan(EMPTY_TREE, Stripped(ONE_FILE), [0], NOTHING, differ);
            r.Some? && r.value.files == [ChangeOf(EMPTY_TREE, ONE_FILE, 0)] && r.value.omitted == 0
  {
    var after := Stripped(ONE_FILE);
    assert after.files[0] == ONE_FILE.files[0].(content := None);
    assert [0][..0] == [] && [0][..1] == [0];
    ScanOneMore(EMPTY_TREE, after, [0], 0, NOTHING, differ);
  }

  lemma EmptyIsTaken()
    ensures Takes(Some(EMPTY_TREE), OnlyOne) && Saveable(EMPTY_TREE, _ => false, map[])
  {
  }

  const NO_FAULTS := Environment(false, false, Some(ONE_FILE), _ => false, false, false, false, 1)

  lemma OneFileEndsWell(differ: Differ, blobs: map<Digest, Bytes>)
    requires forall d :: d in blobs ==> Names(EMPTY_TREE, d)
    ensures EndsWell(Begun(Beginning(false, Some(EMPTY_TREE), _ => false, false)), differ, NO_FAULTS, blobs)
    ensures Taken(ONE_FILE, OnlyOne) && Captured(ONE_FILE)
  {
    hide Built;
    OneFileIsReady(differ);
    assert Stripped(EMPTY_TREE) == EMPTY_TREE;
  }

  /** A ready receipt with a file, which a later finish whose first look at the record fails gives up. */
  method ReadyReceiptIsLost(differ: Differ) returns (was: StoredTurn, later: StoredTurn)
    ensures was.state.Ready? && was.changes.files == [ChangeOf(EMPTY_TREE, ONE_FILE, 0)]
    ensures later == GivenUp(was, 2)
  {
    hide Built, StateOf, ChangeOf, EndsWell, Names, Stored, Taken, Captured;
    var directory := new TurnDirectory(OnlyOne);
    EmptyIsTaken();
    var _ := directory.BeginTurnCapture(Beginning(false, Some(EMPTY_TREE), _ => false, false));
    OneFileEndsWell(differ, directory.blobs);
    assert Stripped(EMPTY_TREE) == EMPTY_TREE;
    OneFileIsReady(differ);
    var _ := directory.FinishTurnCapture(false, differ, NO_FAULTS);
    was := directory.record.value;
    var _ := directory.FinishTurnCapture(true, differ, NO_FAULTS.(existsFails := true, now := 2));
    later := directory.record.value;
  }
}
