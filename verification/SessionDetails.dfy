/** What the host remembers of the sessions it runs: a bounded window over each session's events. */
module SessionDetails {
  import opened Options
  import opened Sequences

  type Id = nat

  const MAX_RETAINED_DETAILS := 256
  const MAX_EVENTS_PER_SESSION := 100

  datatype Event = Event(sequence: nat, at: int, summary: string)

  datatype Detail = Detail(task: string, events: seq<Event>, truncated: bool, terminal: bool)

  /** The start event and the newest of the others. */
  function Window(history: seq<Event>): seq<Event> {
    if |history| <= MAX_EVENTS_PER_SESSION then history
    else [history[0]] + Last(history, MAX_EVENTS_PER_SESSION - 1)
  }

  /** The detail shows the window of its history, in which events are numbered from one without a gap. */
  ghost predicate Shows(d: Detail, history: seq<Event>) {
    && history != [] && (forall i :: 0 <= i < |history| ==> history[i].sequence == i + 1)
    && d.events == Window(history) && (d.truncated <==> |history| > MAX_EVENTS_PER_SESSION)
  }

  lemma WindowIsBounded(d: Detail, history: seq<Event>)
    requires Shows(d, history)
    ensures 0 < |d.events| <= MAX_EVENTS_PER_SESSION
    ensures d.events[0] == history[0] && d.events[|d.events| - 1] == history[|history| - 1]
    ensures d.events[|d.events| - 1].sequence == |history|
  {
  }

  /** Dropping the second event of a full window and appending is the window of the longer history. */
  lemma WindowSlides(d: Detail, history: seq<Event>, e: Event)
    requires Shows(d, history) && e.sequence == |history| + 1
    ensures var full := |d.events| == MAX_EVENTS_PER_SESSION;
            var events := if full then [d.events[0]] + d.events[2..] else d.events;
            && events != [] && events[|events| - 1].sequence == |history|
            && Shows(d.(events := events + [e], truncated := d.truncated || full), history + [e])
  {
    var longer := history + [e];
    if |history| > MAX_EVENTS_PER_SESSION {
      var recent := Last(history, MAX_EVENTS_PER_SESSION - 1);
      assert d.events[2..] == recent[1..];
      assert recent[1..] + [e] == Last(longer, MAX_EVENTS_PER_SESSION - 1);
      assert Window(longer) == [history[0]] + (recent[1..] + [e]);
    } else if |history| == MAX_EVENTS_PER_SESSION {
      assert history[2..] + [e] == Last(longer, MAX_EVENTS_PER_SESSION - 1);
      assert Window(longer) == [history[0]] + (history[2..] + [e]);
    }
  }

  function LastAt(d: Detail): int {
    if d.events == [] then 0 else d.events[|d.events| - 1].at
  }

  /** The finished session whose last event is the oldest, the smaller id first. */
  ghost predicate OldestFinished(details: map<Id, Detail>, among: set<Id>, id: Id) {
    && id in among && id in details && details[id].terminal
    && forall x :: x in among && x in details && details[x].terminal && x != id
         ==> LastAt(details[id]) < LastAt(details[x]) || (LastAt(details[id]) == LastAt(details[x]) && id < x)
  }

  class DetailStore {
    var details: map<Id, Detail>
    ghost var histories: map<Id, seq<Event>>

    ghost predicate Valid()
      reads this
    {
      && |details| <= MAX_RETAINED_DETAILS
      && forall id :: id in details ==> id in histories && Shows(details[id], histories[id])
    }

    constructor ()
      ensures Valid() && details == map[]
    {
      details, histories := map[], map[];
    }

    method FindOldestFinished() returns (oldest: Option<Id>)
      ensures oldest.Some? ==> OldestFinished(details, details.Keys, oldest.value)
      ensures oldest.None? ==> forall id :: id in details ==> !details[id].terminal
    {
      oldest := None;
      var left := details.Keys;
      while left != {}
        invariant left <= details.Keys
        invariant oldest.None? ==> forall id :: id in details.Keys - left ==> !details[id].terminal
        invariant oldest.Some? ==> OldestFinished(details, details.Keys - left, oldest.value)
        decreases |left|
      {
        var id :| id in left;
        ghost var seen := details.Keys - left;
        left := left - {id};
        assert details.Keys - left == seen + {id};
        var d := details[id];
        if d.terminal
           && (oldest.None? || LastAt(d) < LastAt(details[oldest.value]) || (LastAt(d) == LastAt(details[oldest.value]) && id < oldest.value))
        {
          oldest := Some(id);
        }
      }
      assert details.Keys - left == details.Keys;
    }

    /** Room is made only by forgetting a finished session; if there is none, the new one is not remembered at all. */
    method Begin(id: Id, task: string, summary: string, now: int)
      requires Valid()
      modifies this
      ensures Valid()
      ensures forall x :: x in old(details) && x != id && !old(details)[x].terminal ==> x in details && details[x] == old(details)[x]
      ensures |old(details)| < MAX_RETAINED_DETAILS ==>
                details == old(details)[id := Detail(task, [Event(1, now, summary)], false, false)]
      ensures |old(details)| >= MAX_RETAINED_DETAILS && (forall x :: x in old(details) ==> !old(details)[x].terminal) ==> details == old(details)
      ensures |old(details)| >= MAX_RETAINED_DETAILS && (exists x :: x in old(details) && old(details)[x].terminal) ==>
                exists gone: Id :: OldestFinished(old(details), old(details).Keys, gone)
                               && details == (old(details) - {gone})[id := Detail(task, [Event(1, now, summary)], false, false)]
    {
      if |details| >= MAX_RETAINED_DETAILS {
        var oldest := FindOldestFinished();
        if oldest.None? { return; }
        RemovalMakesRoom(details, oldest.value);
        details := details - {oldest.value};
      }
      details := details[id := Detail(task, [Event(1, now, summary)], false, false)];
      histories := histories[id := [Event(1, now, summary)]];
    }

    /** Numbers the event one past the last and keeps the start event with the newest others. */
    method Record(id: Id, summary: string, now: int)
      requires Valid()
      modifies this
      ensures Valid()
      ensures id !in old(details) || summary == "" ==> details == old(details)
      ensures id in old(details) && summary != "" ==>
                && id in old(histories) && details.Keys == old(details).Keys
                && details[id].task == old(details)[id].task && details[id].terminal == old(details)[id].terminal
                && histories == old(histories)[id := old(histories)[id] + [Event(|old(histories)[id]| + 1, now, summary)]]
                && forall x :: x in details && x != id ==> details[x] == old(details)[x]
    {
      hide Shows, Window;
      if id !in details || summary == "" { return; }
      var d := details[id];
      ghost var history := histories[id];
      WindowIsBounded(d, history);
      ghost var e := Event(|history| + 1, now, summary);
      WindowSlides(d, history, e);
      var events, truncated := d.events, d.truncated;
      if |events| == MAX_EVENTS_PER_SESSION {
        events := [events[0]] + events[2..];
        truncated := true;
      }
      var sequence := if events == [] then 1 else events[|events| - 1].sequence + 1;
      details := details[id := d.(events := events + [Event(sequence, now, summary)], truncated := truncated)];
      histories := histories[id := history + [e]];
    }

    method Finish(id: Id)
      requires Valid()
      modifies this
      ensures Valid() && histories == old(histories)
      ensures details == if id in old(details) then old(details)[id := old(details)[id].(terminal := true)] else old(details)
    {
      if id in details {
        details := details[id := details[id].(terminal := true)];
      }
    }
  }

  lemma RemovalMakesRoom(details: map<Id, Detail>, id: Id)
    requires id in details
    ensures |details - {id}| + 1 == |details|
  {
    assert (details - {id}).Keys == details.Keys - {id};
    assert |(details - {id}).Keys| == |details - {id}|;
  }
}
