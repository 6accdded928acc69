/**
 The disk that all hosts share: conversation files with their stamps, the sequence counter and
 the lease files. Every change to it is a sequence of QueueProtocol steps.
 */
module SharedDisk {
  import opened Conversations
  import opened QueueProtocol
  import opened QueueRuns

  /** Some run of protocol steps leads from s to t. A host may stop after any of its steps. */
  ghost predicate Reaches(s: Store, t: Store) {
    exists states, steps :: Run(states, steps) && states[0] == s && states[|steps|] == t
  }

  lemma ReachesItself(s: Store)
    ensures Reaches(s, s)
  {
    assert Run([s], []);
  }

  lemma ReachesByStep(s: Store, t: Store, step: Step)
    requires Reaches(s, t) && Enabled(t, step)
    ensures Reaches(s, Apply(t, step))
  {
    hide Enabled, Apply;
    var states, steps :| Run(states, steps) && states[0] == s && states[|steps|] == t;
    var states', steps' := states + [Apply(t, step)], steps + [step];
    assert Run(states', steps');
  }

  lemma {:induction false} RunsConcatenate(a: seq<Store>, p: seq<Step>, b: seq<Store>, q: seq<Step>)
    requires Run(a, p) && Run(b, q) && a[|p|] == b[0]
    ensures Run(a + b[1..], p + q)
    ensures (a + b[1..])[0] == a[0] && (a + b[1..])[|p + q|] == b[|q|]
  {
    hide Enabled, Apply;
    var c, r := a + b[1..], p + q;
    assert |c| == |r| + 1 && |b| == |q| + 1;
    forall i | 0 <= i < |r| ensures Enabled(c[i], r[i]) && c[i + 1] == Apply(c[i], r[i]) {
      if i >= |p| { assert c[i] == b[i - |p|] && c[i + 1] == b[i - |p| + 1] && r[i] == q[i - |p|]; }
    }
  }

  lemma ReachesTransitive(s: Store, t: Store, u: Store)
    requires Reaches(s, t) && Reaches(t, u)
    ensures Reaches(s, u)
  {
    hide Enabled, Apply;
    var a, p :| Run(a, p) && a[0] == s && a[|p|] == t;
    var b, q :| Run(b, q) && b[0] == t && b[|q|] == u;
    RunsConcatenate(a, p, b, q);
  }

  lemma ReachedStoresAreSound(s: Store, t: Store)
    requires Inv(s) && Reaches(s, t)
    ensures Inv(t)
  {
    hide Inv;
    var states, steps :| Run(states, steps) && states[0] == s && states[|steps|] == t;
    InvAlongRun(states, steps, |steps|);
  }

  /** Nothing that was on disk is lost, reordered or revived on the way from s to t. */
  lemma ReachedStoresAreLater(s: Store, t: Store)
    requires Inv(s) && Reaches(s, t)
    ensures Later(s, t)
  {
    hide Inv, Later;
    var states, steps :| Run(states, steps) && states[0] == s && states[|steps|] == t;
    RunMovesForward(states, steps, 0, |steps|);
  }

  /** What a file's modification time and size have stood for so far. */
  datatype Sighting = Sighting(file: Id, stamp: nat)

  type Sightings = map<Sighting, bool>

  /** The stamp has not stood for another answer to "has this file work?" before. */
  predicate Tells(seen: Sightings, c: Conversation, stamp: nat) {
    Sighting(c.id, stamp) in seen ==> seen[Sighting(c.id, stamp)] == HasWork(c)
  }

  ghost predicate Remembers(before: Sightings, after: Sightings) {
    forall k :: k in before ==> k in after && after[k] == before[k]
  }

  lemma RemembersOneMore(seen: Sightings, key: Sighting, work: bool)
    requires key in seen ==> seen[key] == work
    ensures Remembers(seen, seen[key := work])
  {
  }

  class Disk {
    var files: map<Id, Conversation>
    var stamps: map<Id, nat>
    var counter: nat
    var workers: map<Id, Worker>
    var children: set<Id>
    var others: set<Key>
    var homes: map<Id, Id>
    var seen: Sightings      // history: the file system never reports one stamp for two answers
    ghost var tickets: map<nat, Slot>
    ghost var issued: Names
    ghost var finished: set<Id>
    ghost var starts: seq<Start>

    constructor ()
      ensures Valid() && Model() == EMPTY
    {
      files, stamps, counter, workers, children, others, homes, seen := map[], map[], 0, map[], {}, {}, map[], map[];
      tickets, issued, finished, starts := map[], map[], {}, [];
      new;
      EmptyStoreIsSound();
    }

    ghost function Model(): Store
      reads this
    {
      Store(files, counter, workers, children, others, tickets, homes, issued, finished, starts)
    }

    /** A stamp that a file has now, or ever had, tells whether the file then had work. */
    ghost predicate StampsTell()
      reads this
    {
      stamps.Keys == files.Keys
      && forall id :: id in files ==> Sighting(id, stamps[id]) in seen && seen[Sighting(id, stamps[id])] == HasWork(files[id])
    }

    ghost predicate Valid()
      reads this
    {
      Inv(Model()) && StampsTell()
    }

    /** Atomic replacement of one file. The new stamp is arbitrary, as long as it tells the truth about work. */
    method WriteFile(c: Conversation)
      requires StampsTell()
      modifies this`files, this`stamps, this`seen
      ensures StampsTell() && files == old(files)[c.id := c]
      ensures Remembers(old(seen), seen)
    {
      ghost var unused := SomeStampTells(seen, c);
      assert Tells(seen, c, unused);
      var stamp: nat :| Tells(seen, c, stamp);
      assert Tells(seen, c, stamp);
      assert Sighting(c.id, stamp) in seen ==> seen[Sighting(c.id, stamp)] == HasWork(c);
      RemembersOneMore(seen, Sighting(c.id, stamp), HasWork(c));
      files := files[c.id := c];
      stamps := stamps[c.id := stamp];
      seen := seen[Sighting(c.id, stamp) := HasWork(c)];
    }
  }

  lemma SomeStampTells(seen: Sightings, c: Conversation) returns (stamp: nat)
    ensures Tells(seen, c, stamp)
  {
    stamp := StampBound(seen.Keys);
  }

  ghost function StampBound(keys: set<Sighting>): (b: nat)
    ensures forall k :: k in keys ==> k.stamp < b
  {
    if keys == {} then 0
    else
      var k :| k in keys;
      var rest := StampBound(keys - {k});
      assert forall x :: x in keys ==> x == k || x in keys - {k};
      if k.stamp < rest then rest else k.stamp + 1
  }
}
