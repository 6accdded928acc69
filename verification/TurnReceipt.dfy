/**
 The receipt of one turn: what changed between the capture before it and the capture after it, as a
 list of files and a text patch, stored once.
 */
module TurnReceipt {
  import opened Options
  import opened Sequences

  const MAX_CHECKPOINT_FILES := 2048
  const MAX_CHECKPOINT_PATCH_BYTES := 1024 * 1024

  type Path = nat       // a file path; only equality and order matter
  type Digest = nat
  type Bytes = seq<int>

  datatype File = File(sha: Option<Digest>, mode: Option<nat>, binary: bool, unsupported: bool, preExisting: bool, content: Option<Bytes>)

  datatype Capture = Capture(files: map<Path, File>, omitted: nat, stable: bool)

  /** What of a file a capture compares: nothing at all if the file is not there. */
  datatype Side = Side(sha: Option<Digest>, mode: Option<nat>)

  datatype FileStatus = Added | Modified | Deleted

  datatype Change = Change(path: Path, status: FileStatus, before: Option<Digest>, after: Option<Digest>, preExisting: bool, binary: bool)

  /** The patch text of one file, and whether its own length limit cut it. */
  datatype Diff = Diff(text: string, truncated: bool)

  /** The diff program: it may fail. */
  type Differ = (Path, Side, Side) -> Option<Diff>

  datatype Changes = Changes(files: seq<Change>, omitted: nat, patch: string, truncated: bool)

  const NOTHING := Changes([], 0, "", false)

  function SideOf(c: Capture, p: Path): Side {
    if p in c.files then Side(c.files[p].sha, c.files[p].mode) else Side(None, None)
  }

  predicate Unsupported(c: Capture, p: Path) {
    p in c.files && c.files[p].unsupported
  }

  predicate IsBinary(c: Capture, p: Path) {
    p in c.files && c.files[p].binary
  }

  /** The path is missing from a capture that was full, so it may have been there. */
  predicate Hidden(c: Capture, p: Path) {
    p !in c.files && |c.files| >= MAX_CHECKPOINT_FILES
  }

  function ChangeOf(before: Capture, after: Capture, p: Path): Change {
    var was, now := SideOf(before, p), SideOf(after, p);
    Change(p, if was.sha.None? then Added else if now.sha.None? then Deleted else Modified, was.sha, now.sha,
           p in before.files && before.files[p].preExisting, IsBinary(before, p) || IsBinary(after, p))
  }

  predicate Skips(before: Capture, after: Capture, p: Path) {
    Unsupported(before, p) || Unsupported(after, p)
  }

  predicate Lists(before: Capture, after: Capture, p: Path) {
    !Skips(before, after, p) && !Hidden(before, p) && !Hidden(after, p) && SideOf(before, p) != SideOf(after, p)
  }

  /** One path of the scan. */
  function Visit(r: Changes, before: Capture, after: Capture, p: Path, differ: Differ): Option<Changes> {
    if Skips(before, after, p) then Some(r)
    else if Hidden(before, p) || Hidden(after, p) then Some(r.(omitted := r.omitted + 1))
    else if SideOf(before, p) == SideOf(after, p) then Some(r)
    else
      var listed := r.(files := r.files + [ChangeOf(before, after, p)]);
      if ChangeOf(before, after, p).binary then Some(listed.(truncated := true))
      else
        match differ(p, SideOf(before, p), SideOf(after, p))
        case None => None
        case Some(d) =>
          Some(if |r.patch| + |d.text| <= MAX_CHECKPOINT_PATCH_BYTES
               then listed.(patch := r.patch + d.text, truncated := r.truncated || d.truncated)
               else listed.(truncated := true))
  }

  function Scan(before: Capture, after: Capture, paths: seq<Path>, start: Changes, differ: Differ): Option<Changes> {
    if paths == [] then Some(start)
    else
      match Scan(before, after, paths[..|paths| - 1], start, differ)
      case None => None
      case Some(r) => Visit(r, before, after, paths[|paths| - 1], differ)
  }

  lemma {:induction false} LeastOf(s: set<Path>) returns (p: Path)
    requires s != {}
    ensures p in s && forall q :: q in s ==> p <= q
  {
    p :| p in s;
    var others := s - {p};
    assert s == others + {p};
    if others != {} {
      var m := LeastOf(others);
      if m < p { p := m; }
    }
  }

  lemma LeastPath(s: set<Path>)
    requires s != {}
    ensures exists p :: p in s && forall q :: q in s ==> p <= q
  {
    var p := LeastOf(s);
    assert p in s && forall q :: q in s ==> p <= q;
  }

  /** The paths of a set in ascending order. */
  function Ordered(s: set<Path>): seq<Path> {
    if s == {} then []
    else
      LeastPath(s);
      var p :| p in s && forall q :: q in s ==> p <= q;
      [p] + Ordered(s - {p})
  }

  lemma {:induction false} OrderedIsAscending(s: set<Path>)
    ensures |Ordered(s)| == |s| && (forall p :: p in Ordered(s) <==> p in s)
    ensures forall i, j :: 0 <= i < j < |Ordered(s)| ==> Ordered(s)[i] < Ordered(s)[j]
  {
    if s != {} {
      var p := OrderedUnfolds(s);
      hide Ordered;
      OrderedIsAscending(s - {p});
      LeastInFront(s, p, Ordered(s - {p}));
    }
  }

  lemma OrderedUnfolds(s: set<Path>) returns (p: Path)
    requires s != {}
    ensures p in s && (forall q :: q in s ==> p <= q) && Ordered(s) == [p] + Ordered(s - {p})
  {
    LeastPath(s);
    p :| p in s && (forall q :: q in s ==> p <= q) && Ordered(s) == [p] + Ordered(s - {p});
  }

  lemma LeastInFront(s: set<Path>, p: Path, rest: seq<Path>)
    requires p in s && (forall q :: q in s ==> p <= q)
    requires |rest| == |s - {p}| && (forall q :: q in rest <==> q in s - {p})
    requires forall i, j :: 0 <= i < j < |rest| ==> rest[i] < rest[j]
    ensures |[p] + rest| == |s| && (forall q :: q in [p] + rest <==> q in s)
    ensures forall i, j :: 0 <= i < j < |[p] + rest| ==> ([p] + rest)[i] < ([p] + rest)[j]
  {
    forall i | 0 <= i < |rest| ensures p < rest[i] {
      assert rest[i] in rest;
    }
  }

  function AllPaths(before: Capture, after: Capture): seq<Path> {
    Ordered(before.files.Keys + after.files.Keys)
  }

  function OmittedUpFront(before: Capture, after: Capture): nat {
    (if before.omitted > after.omitted then before.omitted else after.omitted)
    + (if |AllPaths(before, after)| > MAX_CHECKPOINT_FILES then |AllPaths(before, after)| - MAX_CHECKPOINT_FILES else 0)
  }

  datatype State = Capturing | Ready | Incomplete | Unavailable

  /** All changes between two captures; none if the diff program failed. */
  function Built(before: Capture, after: Capture, differ: Differ): Option<Changes> {
    Scan(before, after, First(AllPaths(before, after), MAX_CHECKPOINT_FILES),
         NOTHING.(omitted := OmittedUpFront(before, after)), differ)
  }

  function StateOf(before: Capture, after: Capture, changes: Changes): State {
    if changes.omitted == 0 && before.stable && after.stable then Ready else Incomplete
  }

  method BuildChanges(before: Capture, after: Capture, differ: Differ) returns (r: Option<Changes>, state: State)
    ensures r == Built(before, after, differ)
    ensures r.Some? ==> state == StateOf(before, after, r.value)
  {
    hide Visit, AllPaths;
    var paths := AllPaths(before, after);
    var most := if before.omitted > after.omitted then before.omitted else after.omitted;
    var omitted := most + (if |paths| > MAX_CHECKPOINT_FILES then |paths| - MAX_CHECKPOINT_FILES else 0);
    paths := First(paths, MAX_CHECKPOINT_FILES);
    var changes := Changes([], omitted, "", false);
    ghost var start := changes;
    state := Unavailable;
    var i := 0;
    while i < |paths|
      invariant i <= |paths| && Scan(before, after, paths[..i], start, differ) == Some(changes)
    {
      ScanOneMore(before, after, paths, i, start, differ);
      var next := VisitPath(changes, before, after, paths[i], differ);
      i := i + 1;
      if next.None? {
        FailureStays(before, after, paths, i, start, differ);
        return None, Unavailable;
      }
      changes := next.value;
    }
    assert paths[..i] == paths;
    r := Some(changes);
    state := if changes.omitted == 0 && before.stable && after.stable then Ready else Incomplete;
  }

  lemma ScanOneMore(before: Capture, after: Capture, paths: seq<Path>, i: nat, start: Changes, differ: Differ)
    requires i < |paths| && Scan(before, after, paths[..i], start, differ).Some?
    ensures Scan(before, after, paths[..i + 1], start, differ) == Visit(Scan(before, after, paths[..i], start, differ).value, before, after, paths[i], differ)
  {
    hide Visit;
    assert paths[..i + 1][..i] == paths[..i];
  }

  method VisitPath(changes: Changes, before: Capture, after: Capture, p: Path, differ: Differ) returns (r: Option<Changes>)
    ensures r == Visit(changes, before, after, p, differ)
  {
    if Unsupported(before, p) || Unsupported(after, p) { return Some(changes); }
    if Hidden(before, p) || Hidden(after, p) { return Some(changes.(omitted := changes.omitted + 1)); }
    var was, now := SideOf(before, p), SideOf(after, p);
    if was == now { return Some(changes); }
    var change := ChangeOf(before, after, p);
    var files, patch, truncated := changes.files + [change], changes.patch, changes.truncated;
    if change.binary { return Some(changes.(files := files, truncated := true)); }
    var d := differ(p, was, now);
    if d.None? { return None; }
    if |patch| + |d.value.text| <= MAX_CHECKPOINT_PATCH_BYTES {
      patch := patch + d.value.text;
      truncated := truncated || d.value.truncated;
    } else {
      truncated := true;
    }
    r := Some(changes.(files := files, patch := patch, truncated := truncated));
  }

  lemma {:induction false} FailureStays(before: Capture, after: Capture, paths: seq<Path>, i: nat, start: Changes, differ: Differ)
    requires i <= |paths| && Scan(before, after, paths[..i], start, differ).None?
    ensures Scan(before, after, paths, start, differ).None?
  {
    if i < |paths| {
      var most := paths[..|paths| - 1];
      assert most[..i] == paths[..i];
      FailureStays(before, after, most, i, start, differ);
    } else {
      assert paths[..i] == paths;
    }
  }

  // ---------------------------------------------------------------- what a capture is

  /** How captures are made: a file that cannot be captured is counted, and a captured file has a digest and a mode. */
  ghost predicate Captured(c: Capture) {
    && |c.files| <= MAX_CHECKPOINT_FILES
    && (forall p :: p in c.files && c.files[p].unsupported ==> c.omitted > 0)
    && (forall p :: p in c.files ==> (c.files[p].sha.Some? <==> c.files[p].mode.Some?))
  }

  ghost predicate Ascending(files: seq<Change>) {
    forall i, j :: 0 <= i < j < |files| ==> files[i].path < files[j].path
  }

  ghost predicate ScannedRight(before: Capture, after: Capture, paths: seq<Path>, start: Changes, r: Changes) {
    && (forall i :: 0 <= i < |r.files| ==>
          (&& r.files[i].path in paths && Lists(before, after, r.files[i].path)
           && r.files[i] == ChangeOf(before, after, r.files[i].path)))
    && (forall p :: p in paths && Lists(before, after, p) ==> exists i :: 0 <= i < |r.files| && r.files[i].path == p)
    && Ascending(r.files)
    && start.omitted <= r.omitted
    && (r.omitted == start.omitted ==> forall p :: p in paths && !Skips(before, after, p) ==> !Hidden(before, p) && !Hidden(after, p))
  }

  lemma VisitedRight(before: Capture, after: Capture, paths: seq<Path>, start: Changes, r: Changes, p: Path, r': Changes, differ: Differ)
    requires ScannedRight(before, after, paths, start, r) && Visit(r, before, after, p, differ) == Some(r')
    requires forall q :: q in paths ==> q < p
    ensures ScannedRight(before, after, paths + [p], start, r')
  {
    hide SideOf, Hidden, Skips, ChangeOf;
    VisitLists(r, before, after, p, differ);
    assert ChangeOf(before, after, p).path == p by { PathOfChange(before, after, p); }
    var all := paths + [p];
    if Lists(before, after, p) {
      assert r'.files[|r.files|].path == p;
    }
    forall q | q in all && Lists(before, after, q) ensures exists i :: 0 <= i < |r'.files| && r'.files[i].path == q {
      if q in paths {
        var i :| 0 <= i < |r.files| && r.files[i].path == q;
        assert r'.files[i].path == q;
      }
    }
  }

  lemma PathOfChange(before: Capture, after: Capture, p: Path)
    ensures ChangeOf(before, after, p).path == p
  {
  }

  lemma VisitLists(r: Changes, before: Capture, after: Capture, p: Path, differ: Differ)
    ensures var v := Visit(r, before, after, p, differ);
            v.Some? ==>
              && v.value.files == r.files + (if Lists(before, after, p) then [ChangeOf(before, after, p)] else [])
              && v.value.omitted == r.omitted + (if !Skips(before, after, p) && (Hidden(before, p) || Hidden(after, p)) then 1 else 0)
  {
  }

  lemma {:induction false} ScanIsRight(before: Capture, after: Capture, paths: seq<Path>, start: Changes, differ: Differ)
    requires forall i, j :: 0 <= i < j < |paths| ==> paths[i] < paths[j]
    requires start.files == []
    ensures var r := Scan(before, after, paths, start, differ); r.Some? ==> ScannedRight(before, after, paths, start, r.value)
  {
    hide ScannedRight, Visit;
    if paths == [] {
      EmptyScan(before, after, start);
    } else {
      var most, p := paths[..|paths| - 1], paths[|paths| - 1];
      ScanIsRight(before, after, most, start, differ);
      var r := Scan(before, after, most, start, differ);
      assert paths == most + [p];
      if r.Some? && Visit(r.value, before, after, p, differ).Some? {
        VisitedRight(before, after, most, start, r.value, p, Visit(r.value, before, after, p, differ).value, differ);
      }
    }
  }

  lemma EmptyScan(before: Capture, after: Capture, start: Changes)
    requires start.files == []
    ensures ScannedRight(before, after, [], start, start)
  {
  }

  // ---------------------------------------------------------------- ready receipts

  /** The digests of the files that a capture holds. */
  function Digests(c: Capture): map<Path, Digest> {
    map p | p in c.files && c.files[p].sha.Some? :: c.files[p].sha.value
  }

  /** What decides whether two captures of a tree are the same. */
  function Canonical(c: Capture): map<Path, Side> {
    map p | p in c.files && c.files[p].sha.Some? :: SideOf(c, p)
  }

  /** The tree after the listed changes. */
  function Applied(tree: map<Path, Digest>, files: seq<Change>): map<Path, Digest> {
    if files == [] then tree
    else
      var t := Applied(tree, files[..|files| - 1]);
      var last := files[|files| - 1];
      if last.after.Some? then t[last.path := last.after.value] else t - {last.path}
  }

  lemma {:induction false} AppliedAt(tree: map<Path, Digest>, files: seq<Change>, p: Path)
    requires Ascending(files)
    ensures forall i :: 0 <= i < |files| && files[i].path == p ==>
              (p in Applied(tree, files) <==> files[i].after.Some?) && (p in Applied(tree, files) ==> Applied(tree, files)[p] == files[i].after.value)
    ensures (forall i :: 0 <= i < |files| ==> files[i].path != p) ==>
              (p in Applied(tree, files) <==> p in tree) && (p in tree ==> Applied(tree, files)[p] == tree[p])
  {
    if files != [] {
      var most := files[..|files| - 1];
      AppliedAt(tree, most, p);
      assert forall i :: 0 <= i < |most| ==> files[i] == most[i];
    }
  }

  /** The receipt lists exactly the paths whose digest or mode differ, in path order. */
  ghost predicate Complete(before: Capture, after: Capture, r: Changes) {
    && Ascending(r.files)
    && (forall i :: 0 <= i < |r.files| ==> r.files[i] == ChangeOf(before, after, r.files[i].path) && SideOf(before, r.files[i].path) != SideOf(after, r.files[i].path))
    && (forall p :: SideOf(before, p) != SideOf(after, p) ==> exists i :: 0 <= i < |r.files| && r.files[i].path == p)
  }

  /** A ready receipt is complete. */
  lemma ReadyIsComplete(before: Capture, after: Capture, differ: Differ)
    requires Captured(before) && Captured(after)
    requires var r := Built(before, after, differ); r.Some? && StateOf(before, after, r.value).Ready?
    ensures Complete(before, after, Built(before, after, differ).value)
  {
    hide ScannedRight, Scan, ChangeOf, Complete, AllPaths;
    OrderedIsAscending(before.files.Keys + after.files.Keys);
    var paths := First(AllPaths(before, after), MAX_CHECKPOINT_FILES);
    var start := NOTHING.(omitted := OmittedUpFront(before, after));
    var r := Built(before, after, differ).value;
    assert r.omitted == 0;
    assert forall i, j :: 0 <= i < j < |paths| ==> paths[i] < paths[j] by { PathsAscend(before, after); }
    ScanIsRight(before, after, paths, start, differ);
    NothingOmitted(before, after, paths, start, r);
    ScannedIsComplete(before, after, start, r);
  }

  lemma PathsAscend(before: Capture, after: Capture)
    ensures var paths := First(AllPaths(before, after), MAX_CHECKPOINT_FILES);
            forall i, j :: 0 <= i < j < |paths| ==> paths[i] < paths[j]
    ensures forall p :: p in AllPaths(before, after) <==> p in before.files || p in after.files
  {
    hide Ordered;
    OrderedIsAscending(before.files.Keys + after.files.Keys);
  }

  lemma NothingOmitted(before: Capture, after: Capture, paths: seq<Path>, start: Changes, r: Changes)
    requires ScannedRight(before, after, paths, start, r) && r.omitted == 0
    requires paths == First(AllPaths(before, after), MAX_CHECKPOINT_FILES) && start.omitted == OmittedUpFront(before, after)
    ensures before.omitted == 0 && after.omitted == 0 && start.omitted == 0 && paths == AllPaths(before, after)
  {
    hide AllPaths;
  }

  lemma ScannedIsComplete(before: Capture, after: Capture, start: Changes, r: Changes)
    requires Captured(before) && Captured(after) && before.omitted == 0 && after.omitted == 0 && r.omitted == start.omitted
    requires ScannedRight(before, after, AllPaths(before, after), start, r)
    ensures Complete(before, after, r)
  {
    hide AllPaths, ChangeOf;
    PathsAscend(before, after);
    forall p | SideOf(before, p) != SideOf(after, p) ensures exists i :: 0 <= i < |r.files| && r.files[i].path == p {
      assert p in AllPaths(before, after);
      assert Lists(before, after, p);
    }
  }

  /** Applying a complete receipt to the tree before gives the tree after. */
  lemma CompleteReplays(before: Capture, after: Capture, r: Changes)
    requires Complete(before, after, r)
    ensures Applied(Digests(before), r.files) == Digests(after)
  {
    var t := Applied(Digests(before), r.files);
    forall p ensures (p in t <==> p in Digests(after)) && (p in t ==> t[p] == Digests(after)[p]) {
      AppliedAt(Digests(before), r.files, p);
      if SideOf(before, p) == SideOf(after, p) {
        assert forall i :: 0 <= i < |r.files| ==> r.files[i].path != p;
      } else {
        var i :| 0 <= i < |r.files| && r.files[i].path == p;
        assert r.files[i].after == SideOf(after, p).sha;
      }
    }
  }

  /** A ready receipt is empty exactly if the two captures are the same tree, and replays to the tree after. */
  lemma ReadyReceiptsReplay(before: Capture, after: Capture, differ: Differ)
    requires Captured(before) && Captured(after)
    requires var r := Built(before, after, differ); r.Some? && StateOf(before, after, r.value).Ready?
    ensures var r := Built(before, after, differ).value;
            && Complete(before, after, r)
            && Applied(Digests(before), r.files) == Digests(after)
            && (r.files == [] <==> Canonical(before) == Canonical(after))
  {
    hide Built, Applied, StateOf;
    ReadyIsComplete(before, after, differ);
    var r := Built(before, after, differ).value;
    CompleteReplays(before, after, r);
    SameTree(before, after);
    if r.files != [] {
      var p := r.files[0].path;
      assert SideOf(before, p) != SideOf(after, p);
    }
  }

  lemma SameTree(before: Capture, after: Capture)
    requires Captured(before) && Captured(after)
    ensures Canonical(before) == Canonical(after) <==> forall p :: SideOf(before, p) == SideOf(after, p)
  {
    if Canonical(before) == Canonical(after) {
      forall p ensures SideOf(before, p) == SideOf(after, p) {
        assert p in Canonical(before) <==> p in Canonical(after);
        assert p in Canonical(before) ==> Canonical(before)[p] == Canonical(after)[p];
      }
    }
    if forall p :: SideOf(before, p) == SideOf(after, p) {
      forall p ensures p in Canonical(before) <==> p in Canonical(after) {
        assert SideOf(before, p) == SideOf(after, p);
      }
      assert Canonical(before) == Canonical(after);
    }
  }

  // ---------------------------------------------------------------- what a listed change says

  /** The file was there, with a digest. */
  predicate Holds(c: Capture, p: Path) {
    p in c.files && c.files[p].sha.Some?
  }

  /** One capture holds the file and the other does not, or its bytes or its mode are not the same. */
  predicate ChangedBetween(before: Capture, after: Capture, p: Path) {
    || (Holds(before, p) != Holds(after, p))
    || (Holds(before, p) && Holds(after, p)
        && (before.files[p].sha != after.files[p].sha || before.files[p].mode != after.files[p].mode))
  }

  /** The change tells what became of the file between the two captures. */
  predicate Tells(before: Capture, after: Capture, f: Change) {
    var p := f.path;
    && (f.status.Added? <==> !Holds(before, p))
    && (f.status.Deleted? <==> Holds(before, p) && !Holds(after, p))
    && (f.status.Modified? <==> Holds(before, p) && Holds(after, p))
    && f.before == (if Holds(before, p) then before.files[p].sha else None)
    && f.after == (if Holds(after, p) then after.files[p].sha else None)
    && (f.preExisting <==> p in before.files && before.files[p].preExisting)
    && (f.binary <==> (p in before.files && before.files[p].binary) || (p in after.files && after.files[p].binary))
  }

  /** Every listed change of any receipt is of a file that differs, and says what became of it. */
  lemma ListedChangesTell(before: Capture, after: Capture, differ: Differ)
    requires Captured(before) && Captured(after)
    ensures var r := Built(before, after, differ);
            r.Some? ==> forall i :: 0 <= i < |r.value.files| ==>
                          Tells(before, after, r.value.files[i]) && ChangedBetween(before, after, r.value.files[i].path)
  {
    hide Scan, AllPaths;
    PathsAscend(before, after);
    var paths := First(AllPaths(before, after), MAX_CHECKPOINT_FILES);
    ScanIsRight(before, after, paths, NOTHING.(omitted := OmittedUpFront(before, after)), differ);
    if Built(before, after, differ).Some? {
      var r := Built(before, after, differ).value;
      forall i | 0 <= i < |r.files| ensures Tells(before, after, r.files[i]) && ChangedBetween(before, after, r.files[i].path) {
        ListedTells(before, after, r.files[i].path);
      }
    }
  }

  lemma ListedTells(before: Capture, after: Capture, p: Path)
    requires Captured(before) && Captured(after)
    ensures SideOf(before, p) != SideOf(after, p) <==> ChangedBetween(before, after, p)
    ensures SideOf(before, p) != SideOf(after, p) ==> Tells(before, after, ChangeOf(before, after, p))
  {
    assert p in before.files ==> (before.files[p].sha.Some? <==> before.files[p].mode.Some?);
    assert p in after.files ==> (after.files[p].sha.Some? <==> after.files[p].mode.Some?);
  }

  /** Both captures are stable and left nothing out, and no path can be missing from one only because that one was full. */
  ghost predicate Comparable(before: Capture, after: Capture) {
    && before.stable && after.stable && before.omitted == 0 && after.omitted == 0
    && |before.files.Keys + after.files.Keys| <= MAX_CHECKPOINT_FILES
    && forall p :: p in before.files || p in after.files ==>
         (p in before.files || |before.files| < MAX_CHECKPOINT_FILES) && (p in after.files || |after.files| < MAX_CHECKPOINT_FILES)
  }

  lemma {:induction false} NothingHiddenNothingOmitted(before: Capture, after: Capture, paths: seq<Path>, start: Changes, differ: Differ)
    requires forall i :: 0 <= i < |paths| ==> !Hidden(before, paths[i]) && !Hidden(after, paths[i])
    ensures var r := Scan(before, after, paths, start, differ); r.Some? ==> r.value.omitted == start.omitted
  {
    hide Visit, Hidden, Skips;
    if paths != [] {
      var most, p := paths[..|paths| - 1], paths[|paths| - 1];
      NothingHiddenNothingOmitted(before, after, most, start, differ);
      var r := Scan(before, after, most, start, differ);
      if r.Some? { VisitLists(r.value, before, after, p, differ); }
    }
  }

  /** A receipt is ready exactly if the two captures can be compared in full. */
  lemma ReadyExactlyIfComparable(before: Capture, after: Capture, differ: Differ)
    requires Captured(before) && Captured(after) && Built(before, after, differ).Some?
    ensures StateOf(before, after, Built(before, after, differ).value).Ready? <==> Comparable(before, after)
  {
    hide Scan, AllPaths, ScannedRight, Captured;
    var r := Built(before, after, differ).value;
    PathsAscend(before, after);
    AllPathsSize(before, after);
    var paths, start := First(AllPaths(before, after), MAX_CHECKPOINT_FILES), NOTHING.(omitted := OmittedUpFront(before, after));
    ScanIsRight(before, after, paths, start, differ);
    if Comparable(before, after) {
      assert forall i :: 0 <= i < |paths| ==> paths[i] in AllPaths(before, after);
      NothingHiddenNothingOmitted(before, after, paths, start, differ);
    }
    if r.omitted == 0 {
      NothingOmitted(before, after, paths, start, r);
      NoneIsHidden(before, after, start, r);
    }
  }

  lemma AllPathsSize(before: Capture, after: Capture)
    ensures |AllPaths(before, after)| == |before.files.Keys + after.files.Keys|
  {
    OrderedIsAscending(before.files.Keys + after.files.Keys);
  }

  lemma NoneIsHidden(before: Capture, after: Capture, start: Changes, r: Changes)
    requires Captured(before) && Captured(after) && before.omitted == 0 && after.omitted == 0 && r.omitted == start.omitted
    requires ScannedRight(before, after, AllPaths(before, after), start, r)
    ensures forall p :: p in before.files || p in after.files ==> !Hidden(before, p) && !Hidden(after, p)
  {
    hide AllPaths, ChangeOf;
    PathsAscend(before, after);
  }

  /** A ready receipt lists a path if and only if the file differs, and what it says of it is what happened. */
  lemma ReadyReceiptsTellAll(before: Capture, after: Capture, differ: Differ)
    requires Captured(before) && Captured(after)
    requires var r := Built(before, after, differ); r.Some? && StateOf(before, after, r.value).Ready?
    ensures var files := Built(before, after, differ).value.files;
            && Ascending(files)
            && (forall i :: 0 <= i < |files| ==> Tells(before, after, files[i]))
            && (forall p :: ChangedBetween(before, after, p) <==> exists i :: 0 <= i < |files| && files[i].path == p)
  {
    hide Built, StateOf, Captured, Tells, ChangedBetween, SideOf;
    ReadyIsComplete(before, after, differ);
    ListedChangesTell(before, after, differ);
    forall p ensures ChangedBetween(before, after, p) <==> SideOf(before, p) != SideOf(after, p) {
      ListedTells(before, after, p);
    }
  }

  // ---------------------------------------------------------------- the patch

  /** The patch texts of the chosen files, whole and in order. */
  function Segments(before: Capture, after: Capture, files: seq<Change>, chosen: set<Path>, differ: Differ): string {
    if files == [] then ""
    else
      var last := files[|files| - 1];
      var d := differ(last.path, SideOf(before, last.path), SideOf(after, last.path));
      Segments(before, after, files[..|files| - 1], chosen, differ)
      + (if last.path in chosen && d.Some? then d.value.text else "")
  }

  lemma {:induction false} ChoosingLater(before: Capture, after: Capture, files: seq<Change>, chosen: set<Path>, p: Path, differ: Differ)
    requires forall i :: 0 <= i < |files| ==> files[i].path != p
    ensures Segments(before, after, files, chosen + {p}, differ) == Segments(before, after, files, chosen, differ)
  {
    if files != [] { ChoosingLater(before, after, files[..|files| - 1], chosen, p, differ); }
  }

  ghost predicate PatchOf(before: Capture, after: Capture, r: Changes, chosen: set<Path>, differ: Differ) {
    && r.patch == Segments(before, after, r.files, chosen, differ) && |r.patch| <= MAX_CHECKPOINT_PATCH_BYTES
    && (!r.truncated ==> forall i :: 0 <= i < |r.files| ==>
          var d := differ(r.files[i].path, SideOf(before, r.files[i].path), SideOf(after, r.files[i].path));
          !r.files[i].binary && r.files[i].path in chosen && d.Some? && !d.value.truncated)
  }

  lemma VisitPatches(before: Capture, after: Capture, r: Changes, p: Path, chosen: set<Path>, differ: Differ) returns (chosen': set<Path>)
    requires PatchOf(before, after, r, chosen, differ) && Visit(r, before, after, p, differ).Some?
    requires forall i :: 0 <= i < |r.files| ==> r.files[i].path != p
    requires p !in chosen
    ensures PatchOf(before, after, Visit(r, before, after, p, differ).value, chosen', differ) && chosen' <= chosen + {p}
  {
    var r' := Visit(r, before, after, p, differ).value;
    chosen' := chosen;
    if r'.files != r.files {
      assert r'.files[..|r'.files| - 1] == r.files;
      if r'.patch != r.patch || !r'.truncated {
        chosen' := chosen + {p};
        ChoosingLater(before, after, r.files, chosen, p, differ);
      }
    }
  }

  /** The patch is whole segments of listed files within its limit; if it is not marked truncated, it has all of them. */
  lemma {:induction false} PatchIsWholeSegments(before: Capture, after: Capture, paths: seq<Path>, start: Changes, differ: Differ)
    returns (chosen: set<Path>)
    requires forall i, j :: 0 <= i < j < |paths| ==> paths[i] < paths[j]
    requires start.files == [] && start.patch == "" && !start.truncated
    ensures var r := Scan(before, after, paths, start, differ);
            r.Some? ==> PatchOf(before, after, r.value, chosen, differ) && forall p :: p in chosen ==> p in paths
  {
    hide Visit;
    chosen := {};
    if paths != [] && Scan(before, after, paths, start, differ).Some? {
      var most, p := paths[..|paths| - 1], paths[|paths| - 1];
      var before' := PatchIsWholeSegments(before, after, most, start, differ);
      ScanIsRight(before, after, most, start, differ);
      var r := Scan(before, after, most, start, differ).value;
      assert forall i :: 0 <= i < |r.files| ==> r.files[i].path in most;
      chosen := VisitPatches(before, after, r, p, before', differ);
    }
  }
}
