/**
 Where an agent's time goes. Over any log whose records carry times, the reported periods account for every
 moment in which a turn was active and no input request was pending, except for what the interpreter deliberately
 gives up when a turn ends without saying so, and as shifted by starts and ends that the payload gives in whole seconds.
 */
module WorkTime {
  import opened Options
  import opened EventState
  import opened Sequences
  import Sorting

  function Sum(ps: seq<Period>): int {
    if ps == [] then 0 else Sum(ps[..|ps| - 1]) + ps[|ps| - 1].end - ps[|ps| - 1].start
  }

  lemma {:induction false} SumOfBoth(a: seq<Period>, b: seq<Period>)
    ensures Sum(a + b) == Sum(a) + Sum(b)
  {
    if b == [] {
      assert a + b == a;
    } else {
      SumOfBoth(a, b[..|b| - 1]);
      assert (a + b)[..|a + b| - 1] == a + b[..|b| - 1];
    }
  }

  /** Time spent in periods that are still open. */
  function Open(starts: map<TurnId, int>, now: int): int {
    if starts == map[] then 0 else now - starts[Least(starts.Keys)]
  }

  /** All work accounted for up to now. */
  function Work(s: State, now: int): int {
    Sum(s.finished) + Open(s.starts, now)
  }

  predicate Running(s: State) {
    s.active != {} && s.pending == {}
  }

  /** What holds after a log whose records all carry times: a turn is open exactly while nothing is asked. */
  ghost predicate Tracked(s: State) {
    && (forall a, b :: a in s.active && b in s.active ==> a == b)
    && s.starts.Keys == (if s.pending == {} then s.active else {})
  }

  /** A period counts nothing if it would end before it starts. */
  function Credited(start: int, end: int): int {
    if end >= start then end - start else 0
  }

  /** What a record gives up: work of a turn that it replaces, restarts or drops without an end of its own. */
  function Lost(s: State, r: Record): int {
    if s.starts == map[] || r.timestamp.None? then 0
    else
      var start, at := s.starts[Least(s.starts.Keys)], r.timestamp.value;
      match r.event
      case TaskStarted(Some(turn), _) =>
        if turn !in s.active && s.lastSignal.Some? && s.lastSignal.value >= start then at - s.lastSignal.value else at - start
      case TurnAborted(None) => at - start
      case _ => 0
  }

  /** A time that the payload gives in whole seconds, if it is positive and its milliseconds fit in 64 bits. */
  predicate GivesTime(seconds: Option<int>) {
    seconds.Some? && 0 < seconds.value && 1000 * seconds.value <= 9_223_372_036_854_775_807
  }

  /** When the turn started: as the payload says in whole seconds, or else at the record. */
  function StartOf(r: Record): int
    requires r.event.TaskStarted? && r.timestamp.Some?
  {
    if GivesTime(r.event.startedAt) then 1000 * r.event.startedAt.value else r.timestamp.value
  }

  /** When the turn ended: as the payload says in whole seconds, or else at the record. */
  function EndOf(r: Record): int
    requires (r.event.TaskComplete? || r.event.TurnAborted?) && r.timestamp.Some?
  {
    if r.event.TaskComplete? && GivesTime(r.event.completedAt) then 1000 * r.event.completedAt.value else r.timestamp.value
  }

  /** What closing the period that began at start at the time end, and not at the record's, makes of the work. */
  function Moved(start: int, end: int, at: int): int {
    Credited(start, end) - (at - start)
  }

  /** What times in the payload add to, or take from, the work that the record times show. */
  function Shift(s: State, r: Record): int {
    if r.timestamp.None? then 0
    else
      var at := r.timestamp.value;
      match r.event
      case TaskStarted(turn, _) => if turn.Some? then at - StartOf(r) else 0
      case TaskComplete(turn, startedAt, _, _) =>
        if turn.None? then 0
        else if turn.value in s.starts then Moved(s.starts[turn.value], EndOf(r), at)
        else if turn.value !in s.split && SecondsToMs(startedAt).Some? then Credited(SecondsToMs(startedAt).value, EndOf(r))
        else 0
      case TurnAborted(turn) =>
        if turn.Some? && turn.value in s.starts then Moved(s.starts[turn.value], EndOf(r), at) else 0
      case _ =>
        if s.starts != map[] && Dispatch(s, r).pending != {} then Moved(s.starts[Least(s.starts.Keys)], at, at) else 0
  }

  lemma ClosingOne(starts: map<TurnId, int>, who: set<TurnId>, end: Option<int>)
    requires forall a, b :: a in starts && b in starts ==> a == b
    ensures Closing(starts, who, end)
            == if starts == map[] || Least(starts.Keys) !in who then [] else Spell(starts[Least(starts.Keys)], end)
  {
    if starts != map[] {
      assert (starts - {Least(starts.Keys)}).Keys == {};
      assert starts - {Least(starts.Keys)} == map[];
    }
  }

  lemma SpellAdds(ps: seq<Period>, start: int, end: Option<int>)
    ensures Sum(ps + Spell(start, end)) == Sum(ps) + (if end.Some? then Credited(start, end.value) else 0)
  {
    var more := Spell(start, end);
    if more == [] {
      assert ps + more == ps;
    } else {
      assert (ps + more)[..|ps|] == ps;
    }
  }

  lemma OpenOne(starts: map<TurnId, int>, k: TurnId, now: int)
    requires k in starts && forall x :: x in starts ==> x == k
    ensures Least(starts.Keys) == k && Open(starts, now) == now - starts[k]
  {
  }

  // ---------------------------------------------------------------- one record

  /** Records that only touch what is pending, or nothing the time depends on. */
  predicate Plain(e: Event) {
    !e.TaskStarted? && !e.TaskComplete? && !e.TurnAborted?
  }

  ghost predicate Accounted(s: State, t0: int, r: Record) {
    r.timestamp.Some? &&
    var s', t1 := Advance(s, r), r.timestamp.value;
    Tracked(s') && Work(s', t1) == Work(s, t0) + (if Running(s) then t1 - t0 else 0) - Lost(s, r) + Shift(s, r)
  }

  /** What is left of the shift after the event itself: closing the open period when an answer is first awaited. */
  function PauseShift(wasWaiting: bool, t: State, at: int): int {
    if !wasWaiting && t.pending != {} && t.starts != map[] then Moved(t.starts[Least(t.starts.Keys)], at, at) else 0
  }

  /** The part after the event itself: crossing the waiting boundary neither makes nor loses time. */
  lemma BoundaryAccounts(wasWaiting: bool, t: State, at: int)
    requires forall a, b :: a in t.active && b in t.active ==> a == b
    requires t.starts.Keys <= t.active && (!wasWaiting ==> t.starts.Keys == t.active)
    requires wasWaiting && t.pending != {} ==> t.starts == map[]
    ensures var u := Boundary(wasWaiting, t, Some(at));
            Tracked(u) && Work(u, at) == Work(t, at) + PauseShift(wasWaiting, t, at)
  {
    hide Sum, Closing;
    var u := Boundary(wasWaiting, t, Some(at));
    ClosingOne(t.starts, t.starts.Keys, Some(at));
    if t.starts != map[] {
      SpellAdds(t.finished, t.starts[Least(t.starts.Keys)], Some(at));
    }
    assert t.finished + [] == t.finished;
    if t.active != {} {
      var k :| k in t.active;
      assert t.active == {k};
      if wasWaiting && t.pending == {} { OpenOne(u.starts, k, at); }
      if k in t.starts { OpenOne(t.starts, k, at); }
    }
  }

  lemma PlainLeavesTurns(s: State, r: Record)
    requires Plain(r.event) && r.timestamp.Some?
    ensures var t := Dispatch(s, r); t.active == s.active && t.starts == s.starts && t.finished == s.finished
    ensures Lost(s, r) == 0
    ensures Shift(s, r) == if s.starts != map[] && Dispatch(s, r).pending != {}
                           then Moved(s.starts[Least(s.starts.Keys)], r.timestamp.value, r.timestamp.value) else 0
  {
  }

  lemma PlainAccounts(s: State, t0: int, r: Record)
    requires Tracked(s) && r.timestamp.Some? && Plain(r.event)
    ensures Accounted(s, t0, r)
  {
    hide Sum, Boundary, Dispatch, Open, Plain, Lost, Shift, Moved;
    PlainLeavesTurns(s, r);
    OpenGrows(s, t0, r.timestamp.value);
    BoundaryAccounts(s.pending != {}, Dispatch(s, r), r.timestamp.value);
    WorkIgnoresSignals(Boundary(s.pending != {}, Dispatch(s, r), r.timestamp));
  }

  lemma OpenGrows(s: State, t0: int, t1: int)
    requires Tracked(s)
    ensures Open(s.starts, t1) == Open(s.starts, t0) + (if Running(s) then t1 - t0 else 0)
    ensures s.starts == map[] <==> !Running(s)
  {
    if s.starts == map[] { assert s.starts.Keys == {}; }
  }

  /** After an event that starts or ends a turn nothing is asked, so that crossing the boundary shifts nothing. */
  ghost predicate AboutToCross(s: State, t0: int, r: Record, t: State) {
    r.timestamp.Some? &&
    var at := r.timestamp.value;
    && (forall a, b :: a in t.active && b in t.active ==> a == b)
    && t.starts.Keys <= t.active && (s.pending == {} ==> t.starts.Keys == t.active) && t.pending == {}
    && Work(t, at) == Work(s, t0) + (if Running(s) then at - t0 else 0) - Lost(s, r) + Shift(s, r)
  }

  lemma CrossingAccounts(s: State, t0: int, r: Record)
    requires Tracked(s) && r.timestamp.Some? && AboutToCross(s, t0, r, Dispatch(s, r))
    ensures Accounted(s, t0, r)
  {
    hide Dispatch, Boundary, Work, Lost, Shift;
    BoundaryAccounts(s.pending != {}, Dispatch(s, r), r.timestamp.value);
    WorkIgnoresSignals(Boundary(s.pending != {}, Dispatch(s, r), r.timestamp));
  }

  lemma WorkIgnoresSignals(t: State)
    ensures forall x, now :: Work(t.(lastSignal := x), now) == Work(t, now)
  {
  }

  lemma StartAccounts(s: State, t0: int, r: Record)
    requires Tracked(s) && r.timestamp.Some? && r.event.TaskStarted?
    ensures AboutToCross(s, t0, r, Dispatch(s, r))
  {
    hide Sum, Closing;
    var at := r.timestamp.value;
    var t := Dispatch(s, r);
    OpenGrows(s, t0, at);
    if r.event.turn.Some? {
      var turn := r.event.turn.value;
      ClosingOne(s.starts, s.active, s.lastSignal);
      assert s.finished + [] == s.finished;
      if s.starts != map[] {
        SpellAdds(s.finished, s.starts[Least(s.starts.Keys)], s.lastSignal);
      }
      assert t.starts.Keys == {turn} && t.active == {turn} && t.starts[turn] == StartOf(r);
      OpenOne(t.starts, turn, at);
    }
  }

  lemma EndAccounts(s: State, t0: int, r: Record)
    requires Tracked(s) && r.timestamp.Some? && (r.event.TaskComplete? || r.event.TurnAborted?)
    ensures AboutToCross(s, t0, r, Dispatch(s, r))
  {
    hide Sum, Closing;
    var at := r.timestamp.value;
    var t := Dispatch(s, r);
    OpenGrows(s, t0, at);
    assert s.finished + [] == s.finished;
    if r.event.turn.Some? {
      var turn := r.event.turn.value;
      if turn in s.starts {
        OpenOne(s.starts, turn, at);
        SpellAdds(s.finished, s.starts[turn], Some(EndOf(r)));
        assert t.starts.Keys == {};
        assert t.starts == map[];
      } else {
        assert t.starts == s.starts;
        if r.event.TaskComplete? && SecondsToMs(r.event.startedAt).Some? {
          SpellAdds(s.finished, SecondsToMs(r.event.startedAt).value, Some(EndOf(r)));
        }
      }
    }
  }

  /** Time is conserved by every record that carries a time, whatever its payload says. */
  lemma EveryRecordAccounts(s: State, t0: int, r: Record)
    requires Tracked(s) && r.timestamp.Some?
    ensures Accounted(s, t0, r)
  {
    hide Accounted, Tracked, AboutToCross, Dispatch;
    if Plain(r.event) {
      PlainAccounts(s, t0, r);
    } else if r.event.TaskStarted? {
      StartAccounts(s, t0, r);
      CrossingAccounts(s, t0, r);
    } else {
      EndAccounts(s, t0, r);
      CrossingAccounts(s, t0, r);
    }
  }

  // ---------------------------------------------------------------- whole logs

  /** The interpretation of a log without the limit on the number of periods. */
  function AdvanceAll(s: State, records: seq<Record>): State
    decreases |records|
  {
    if records == [] then s else AdvanceAll(Advance(s, records[0]), records[1..])
  }

  function Now(t0: int, r: Record): int {
    if r.timestamp.Some? then r.timestamp.value else t0
  }

  function EndTime(t0: int, records: seq<Record>): int
    decreases |records|
  {
    if records == [] then t0 else EndTime(Now(t0, records[0]), records[1..])
  }

  predicate Timed(records: seq<Record>) {
    forall i :: 0 <= i < |records| ==> records[i].timestamp.Some?
  }

  /** Time between records in which a turn was active and nothing was asked. */
  function RunTime(s: State, t0: int, records: seq<Record>): int
    decreases |records|
  {
    if records == [] then 0
    else (if Running(s) then Now(t0, records[0]) - t0 else 0) + RunTime(Advance(s, records[0]), Now(t0, records[0]), records[1..])
  }

  /** Time between records in which an answer was awaited. */
  function WaitTime(s: State, t0: int, records: seq<Record>): int
    decreases |records|
  {
    if records == [] then 0
    else (if s.pending != {} then Now(t0, records[0]) - t0 else 0) + WaitTime(Advance(s, records[0]), Now(t0, records[0]), records[1..])
  }

  function LostTime(s: State, records: seq<Record>): int
    decreases |records|
  {
    if records == [] then 0 else Lost(s, records[0]) + LostTime(Advance(s, records[0]), records[1..])
  }

  function ShiftTime(s: State, records: seq<Record>): int
    decreases |records|
  {
    if records == [] then 0 else Shift(s, records[0]) + ShiftTime(Advance(s, records[0]), records[1..])
  }

  /** Work time is conserved over any log whose records carry times. */
  lemma {:induction false} WorkIsConserved(s: State, t0: int, records: seq<Record>)
    requires Tracked(s) && Timed(records)
    ensures Tracked(AdvanceAll(s, records))
    ensures Work(AdvanceAll(s, records), EndTime(t0, records))
            == Work(s, t0) + RunTime(s, t0, records) - LostTime(s, records) + ShiftTime(s, records)
    decreases |records|
  {
    hide Tracked, Advance, Work, Running, Lost, Shift;
    if records != [] {
      EveryRecordAccounts(s, t0, records[0]);
      WorkIsConserved(Advance(s, records[0]), records[0].timestamp.value, records[1..]);
    }
  }

  // ---------------------------------------------------------------- the limit and the report

  /** The interpreter looks at its periods only to append to them. */
  lemma AdvanceOnlyAppends(s: State, r: Record) returns (more: seq<Period>)
    ensures forall f :: Advance(s.(finished := f), r) == Advance(s, r).(finished := f + more)
  {
    hide Closing, Dispatch;
    var first := DispatchOnlyAppends(s, r);
    var t := Dispatch(s, r);
    var second := if r.timestamp.Some? && s.pending == {} && t.pending != {} then Closing(t.starts, t.starts.Keys, r.timestamp) else [];
    more := first + second;
    forall f: seq<Period> ensures Advance(s.(finished := f), r) == Advance(s, r).(finished := f + more) {
      assert Dispatch(s.(finished := f), r) == t.(finished := f + first);
      assert f + first + second == f + more;
      assert f + first + [] == f + first;
    }
  }

  lemma DispatchOnlyAppends(s: State, r: Record) returns (more: seq<Period>)
    ensures forall f :: Dispatch(s.(finished := f), r) == Dispatch(s, r).(finished := f + more)
  {
    hide Closing;
    more := [];
    match r.event {
      case TaskStarted(Some(turn), _) =>
        if turn !in s.active { more := Closing(s.starts, s.active, s.lastSignal); }
      case TaskComplete(Some(turn), startedAt, completedAt, duration) =>
        more := FinishedAppends(s, turn, startedAt, completedAt, duration, r.timestamp);
      case TurnAborted(Some(turn)) =>
        if turn in s.starts { more := Spell(s.starts[turn], r.timestamp); }
      case _ =>
    }
    forall f: seq<Period> ensures Dispatch(s.(finished := f), r) == Dispatch(s, r).(finished := f + more) {
      assert f + [] == f;
    }
  }

  lemma FinishedAppends(s: State, turn: TurnId, startedAt: Option<int>, completedAt: Option<int>, duration: Option<int>, at: Option<int>)
    returns (more: seq<Period>)
    ensures forall f :: Finished(s.(finished := f), turn, startedAt, completedAt, duration, at)
                        == Finished(s, turn, startedAt, completedAt, duration, at).(finished := f + more)
  {
    var started := if turn in s.starts then Some(s.starts[turn])
                   else if turn in s.split then None
                   else SecondsToMs(startedAt);
    var guess := if started.Some? && duration.Some? then Some(Saturate(started.value + duration.value)) else None;
    var ended := Or(SecondsToMs(completedAt), Or(at, guess));
    more := if started.Some? then Spell(started.value, ended) else [];
  }

  /** With the limit, the interpreter holds exactly the newest 200 of all periods, and everything else as without. */
  lemma {:induction false} LimitKeepsTheNewest(s: State, records: seq<Record>)
    ensures Fold(s.(finished := Last(s.finished, MAX_WORK_PERIODS)), records)
            == AdvanceAll(s, records).(finished := Last(AdvanceAll(s, records).finished, MAX_WORK_PERIODS))
    decreases |records|
  {
    hide Advance;
    if records != [] {
      var r, f := records[0], Last(s.finished, MAX_WORK_PERIODS);
      var more := AdvanceOnlyAppends(s, r);
      assert s.(finished := s.finished) == s;
      assert Advance(s, r).finished == s.finished + more;
      LastOfLast(s.finished, more, MAX_WORK_PERIODS);
      LimitKeepsTheNewest(Advance(s, r), records[1..]);
      assert Step(s.(finished := f), r) == Advance(s, r).(finished := Last(Advance(s, r).finished, MAX_WORK_PERIODS));
    }
  }

  lemma {:induction false} SumOfInsert(p: Period, s: seq<Period>)
    ensures Sum(Sorting.Insert(StartsNoLater, p, s)) == Sum(s) + p.end - p.start
  {
    assert Sum([p]) == Sum([p][..0]) + p.end - p.start;
    if s == [] || StartsNoLater(p, s[0]) {
      SumOfBoth([p], s);
    } else {
      SumOfInsert(p, s[1..]);
      SumOfBoth([s[0]], Sorting.Insert(StartsNoLater, p, s[1..]));
      SumOfBoth([s[0]], s[1..]);
      assert s == [s[0]] + s[1..];
    }
  }

  lemma {:induction false} SumOfSorted(s: seq<Period>)
    ensures Sum(Sorting.Sort(StartsNoLater, s)) == Sum(s) && |Sorting.Sort(StartsNoLater, s)| == |s|
  {
    hide StartsNoLater;
    if s != [] {
      SumOfSorted(s[1..]);
      SumOfInsert(s[0], Sorting.Sort(StartsNoLater, s[1..]));
      InsertAddsOne(s[0], Sorting.Sort(StartsNoLater, s[1..]));
      SumOfBoth([s[0]], s[1..]);
      assert s == [s[0]] + s[1..];
      assert Sum([s[0]]) == Sum([s[0]][..0]) + s[0].end - s[0].start;
    }
  }

  lemma {:induction false} InsertAddsOne(p: Period, s: seq<Period>)
    ensures |Sorting.Insert(StartsNoLater, p, s)| == |s| + 1
  {
    if s != [] && !StartsNoLater(p, s[0]) { InsertAddsOne(p, s[1..]); }
  }

  /** While nothing was dropped, the report adds up to the work so far, and what goes on is counted up to the last change. */
  lemma ReportAddsUp(s: State, now: int, lastChange: int)
    requires Tracked(s) && |s.finished| < MAX_WORK_PERIODS
    requires forall k :: k in s.starts ==> s.starts[k] <= lastChange
    ensures Sum(WorkPeriods(s, lastChange)) == Work(s, now) + (if Running(s) then lastChange - now else 0)
  {
    hide Sorting.Sort, Ongoing, Sum;
    OngoingOne(s, lastChange);
    var going := Ongoing(s.starts, s.active, lastChange);
    SumOfSorted(s.finished + going);
    OpenGrows(s, now, lastChange);
    SumOfBoth(s.finished, going);
  }

  lemma OngoingOne(s: State, lastChange: int)
    requires Tracked(s) && forall k :: k in s.starts ==> s.starts[k] <= lastChange
    ensures Ongoing(s.starts, s.active, lastChange)
            == if s.starts == map[] then [] else [Period(s.starts[Least(s.starts.Keys)], lastChange, true)]
    ensures Sum(Ongoing(s.starts, s.active, lastChange)) == Open(s.starts, lastChange)
  {
    if s.starts != map[] {
      assert (s.starts - {Least(s.starts.Keys)}).Keys == {};
      assert s.starts - {Least(s.starts.Keys)} == map[];
      var going := [Period(s.starts[Least(s.starts.Keys)], lastChange, true)];
      assert Sum(going) == Sum(going[..0]) + going[0].end - going[0].start;
    }
  }

  /**
   The report of a log from its first byte: the reported periods add up to the time in which a turn was
   active and nothing was asked, less what was given up, and shifted by what payload times say.
   */
  lemma ReportedTimeIsWorkTime(t0: int, records: seq<Record>, lastChange: int)
    requires Timed(records) && |AdvanceAll(INITIAL, records).finished| < MAX_WORK_PERIODS
    requires forall k :: k in AdvanceAll(INITIAL, records).starts ==> AdvanceAll(INITIAL, records).starts[k] <= lastChange
    ensures var s := Fold(INITIAL, records);
            Sum(WorkPeriods(s, lastChange))
            == RunTime(INITIAL, t0, records) - LostTime(INITIAL, records) + ShiftTime(INITIAL, records)
               + (if Running(s) then lastChange - EndTime(t0, records) else 0)
  {
    hide AdvanceAll, Fold, RunTime, LostTime, ShiftTime, Timed, EndTime, WorkPeriods;
    WorkIsConserved(INITIAL, t0, records);
    LimitKeepsTheNewest(INITIAL, records);
    assert INITIAL.(finished := Last(INITIAL.finished, MAX_WORK_PERIODS)) == INITIAL;
    assert Fold(INITIAL, records) == AdvanceAll(INITIAL, records);
    ReportAddsUp(AdvanceAll(INITIAL, records), EndTime(t0, records), lastChange);
  }

  // ---------------------------------------------------------------- one turn

  /** Neither starts another turn nor ends this one, nor reports a period of a turn that the log does not show. */
  predicate Within(r: Record, turn: TurnId) {
    match r.event
    case TaskStarted(t, _) => t.None?
    case TaskComplete(t, startedAt, _, _) => t.None? || (t != Some(turn) && SecondsToMs(startedAt).None?)
    case TurnAborted(t) => t.Some? && t != Some(turn)
    case _ => true
  }

  predicate Ends(r: Record, turn: TurnId) {
    (r.event.TaskComplete? || r.event.TurnAborted?) && r.event.turn == Some(turn)
  }

  /** The record times do not go back. */
  predicate Forward(t0: int, records: seq<Record>)
    decreases |records|
  {
    records != [] ==>
      records[0].timestamp.Some? && t0 <= records[0].timestamp.value && Forward(records[0].timestamp.value, records[1..])
  }

  /** The turn is the only one, and its open period, if any, began by now. */
  ghost predicate InTurn(s: State, now: int, turn: TurnId) {
    Tracked(s) && s.active == {turn} && (turn in s.starts ==> s.starts[turn] <= now)
  }

  lemma WithinKeepsTheTurn(s: State, t0: int, r: Record, turn: TurnId)
    requires InTurn(s, t0, turn) && r.timestamp.Some? && t0 <= r.timestamp.value && Within(r, turn)
    ensures InTurn(Advance(s, r), r.timestamp.value, turn)
    ensures Lost(s, r) == 0 && Shift(s, r) == 0
  {
    hide Boundary, Dispatch, Work, Lost, Shift;
    EveryRecordAccounts(s, t0, r);
    DispatchWithin(s, r, turn);
    BoundaryWithin(s.pending != {}, Dispatch(s, r), r.timestamp.value, turn);
    WithinMovesNothing(s, t0, r, turn);
  }

  lemma BoundaryWithin(wasWaiting: bool, t: State, at: int, turn: TurnId)
    requires turn in t.starts ==> t.starts[turn] <= at
    ensures Boundary(wasWaiting, t, Some(at)).active == t.active
    ensures var u := Boundary(wasWaiting, t, Some(at)); turn in u.starts ==> u.starts[turn] <= at
  {
    hide Closing;
  }

  lemma DispatchWithin(s: State, r: Record, turn: TurnId)
    requires s.active == {turn} && Within(r, turn)
    ensures var t := Dispatch(s, r); t.active == {turn} && (turn in t.starts <==> turn in s.starts)
    ensures turn in s.starts ==> Dispatch(s, r).starts[turn] == s.starts[turn]
  {
    hide Closing, Spell, SecondsToMs, Saturate;
  }

  lemma WithinMovesNothing(s: State, t0: int, r: Record, turn: TurnId)
    requires InTurn(s, t0, turn) && r.timestamp.Some? && t0 <= r.timestamp.value && Within(r, turn)
    ensures Lost(s, r) == 0 && Shift(s, r) == 0
  {
    hide Dispatch;
    if s.starts != map[] {
      assert s.starts.Keys == {turn};
      OpenOne(s.starts, turn, t0);
    }
  }

  lemma EndLosesNothing(s: State, r: Record, turn: TurnId)
    requires Tracked(s) && s.active == {turn} && r.timestamp.Some? && Ends(r, turn)
    ensures Lost(s, r) == 0 && Advance(s, r).active == {}
  {
    hide Closing, Spell, SecondsToMs, Saturate;
  }

  /** While a turn is active every moment is work or waiting; nothing is lost, and only its end may shift the sum. */
  lemma {:induction false} TurnIsWorkOrWaiting(s: State, t0: int, turn: TurnId, records: seq<Record>)
    requires InTurn(s, t0, turn) && Forward(t0, records) && records != []
    requires forall i :: 0 <= i < |records| - 1 ==> Within(records[i], turn)
    requires Ends(records[|records| - 1], turn)
    ensures RunTime(s, t0, records) + WaitTime(s, t0, records) == EndTime(t0, records) - t0
    ensures Timed(records) && LostTime(s, records) == 0 && AdvanceAll(s, records).active == {}
    ensures ShiftTime(s, records) == Shift(AdvanceAll(s, records[..|records| - 1]), records[|records| - 1])
    decreases |records|
  {
    hide Advance, Lost, Shift, Within, Ends, Tracked;
    var r := records[0];
    assert s.active != {} by { assert turn in s.active; }
    if |records| == 1 {
      EndLosesNothing(s, r, turn);
      assert records[1..] == [] && records[..0] == [];
    } else {
      WithinKeepsTheTurn(s, t0, r, turn);
      var rest := records[1..];
      assert rest[|rest| - 1] == records[|records| - 1];
      assert forall i :: 0 <= i < |rest| ==> rest[i] == records[i + 1];
      assert records[..|records| - 1][1..] == rest[..|rest| - 1];
      TurnIsWorkOrWaiting(Advance(s, r), r.timestamp.value, turn, rest);
    }
  }

  /** Where the work of a turn ends: at its own end, but at the end record if an answer is awaited then. */
  function WorkEnd(s: State, r: Record, turn: TurnId): int
    requires r.timestamp.Some? && Ends(r, turn)
  {
    if turn !in s.starts then r.timestamp.value
    else if EndOf(r) < s.starts[turn] then s.starts[turn]
    else EndOf(r)
  }

  lemma EndShift(s: State, r: Record, turn: TurnId)
    requires Tracked(s) && r.timestamp.Some? && Ends(r, turn)
    requires turn in s.starts || turn in s.split || (r.event.TaskComplete? ==> SecondsToMs(r.event.startedAt).None?)
    ensures Shift(s, r) == WorkEnd(s, r, turn) - r.timestamp.value
  {
  }

  /** A turn that waits has been split, so that its end does not report it a second time. */
  ghost predicate SplitIfWaiting(s: State, turn: TurnId) {
    turn in s.starts || turn in s.split
  }

  lemma {:induction false} TurnStaysKnown(s: State, t0: int, turn: TurnId, records: seq<Record>)
    requires InTurn(s, t0, turn) && Forward(t0, records) && SplitIfWaiting(s, turn)
    requires forall i :: 0 <= i < |records| ==> Within(records[i], turn)
    ensures var u := AdvanceAll(s, records); Tracked(u) && SplitIfWaiting(u, turn)
    decreases |records|
  {
    hide Advance, Within, Tracked;
    if records != [] {
      WithinKeepsTheTurn(s, t0, records[0], turn);
      StepKeepsKnown(s, records[0], turn);
      assert forall i :: 0 <= i < |records| - 1 ==> records[1..][i] == records[i + 1];
      TurnStaysKnown(Advance(s, records[0]), records[0].timestamp.value, turn, records[1..]);
    }
  }

  lemma StepKeepsKnown(s: State, r: Record, turn: TurnId)
    requires s.active == {turn} && Within(r, turn) && SplitIfWaiting(s, turn)
    ensures SplitIfWaiting(Advance(s, r), turn)
  {
    hide Closing, Spell, SecondsToMs, Saturate;
  }

  /**
   A turn whose period is open since e ends with the last record, even while an answer is awaited: its periods
   add up to its length, from e to its end, less the time it waited. Both ends may come from the payload.
   */
  lemma TurnTimeExcludesWaiting(s: State, t0: int, turn: TurnId, records: seq<Record>)
    requires InTurn(s, t0, turn) && s.pending == {} && Forward(t0, records) && records != []
    requires forall i :: 0 <= i < |records| - 1 ==> Within(records[i], turn)
    requires Ends(records[|records| - 1], turn)
    ensures turn in s.starts && records[|records| - 1].timestamp.Some?
    ensures Sum(AdvanceAll(s, records).finished) - Sum(s.finished)
            == WorkEnd(AdvanceAll(s, records[..|records| - 1]), records[|records| - 1], turn)
               - s.starts[turn] - (WaitTime(s, t0, records))
  {
    hide AdvanceAll, RunTime, LostTime, ShiftTime, WaitTime, EndTime, Within, Ends, Shift, WorkEnd;
    var most, last := records[..|records| - 1], records[|records| - 1];
    assert turn in s.starts by { assert turn in s.active; }
    ForwardPrefix(t0, records);
    TurnIsWorkOrWaiting(s, t0, turn, records);
    WorkIsConserved(s, t0, records);
    TurnStaysKnown(s, t0, turn, most);
    EndShift(AdvanceAll(s, most), last, turn);
    EndTimeIsTheLast(t0, records);
    OpenOne(s.starts, turn, t0);
    var u := AdvanceAll(s, records);
    assert u.starts.Keys == {};
    assert u.starts == map[];
  }

  lemma {:induction false} ForwardPrefix(t0: int, records: seq<Record>)
    requires Forward(t0, records) && records != []
    ensures Forward(t0, records[..|records| - 1])
    decreases |records|
  {
    if |records| > 1 {
      assert records[..|records| - 1][1..] == records[1..][..|records| - 2];
      ForwardPrefix(records[0].timestamp.value, records[1..]);
    }
  }

  lemma {:induction false} EndTimeIsTheLast(t0: int, records: seq<Record>)
    requires Timed(records) && records != []
    ensures EndTime(t0, records) == records[|records| - 1].timestamp.value
    decreases |records|
  {
    if |records| > 1 {
      assert records[1..][|records| - 2] == records[|records| - 1];
      EndTimeIsTheLast(records[0].timestamp.value, records[1..]);
    }
  }

  /** The record that starts a turn opens its period at the turn's own start. */
  lemma StartedTurnIsOpen(s: State, r: Record, turn: TurnId)
    requires Tracked(s) && s.active == {} && r.timestamp.Some? && r.event.TaskStarted? && r.event.turn == Some(turn)
    ensures var u := Advance(s, r);
            && Tracked(u) && u.active == {turn} && u.pending == {}
            && (StartOf(r) <= r.timestamp.value ==> InTurn(u, r.timestamp.value, turn))
            && turn in u.starts && u.starts[turn] == StartOf(r) && u.finished == s.finished
  {
    assert s.starts == map[] by { assert s.starts.Keys == {}; }
    assert s.finished + [] == s.finished;
  }

  /**
   A whole turn in the log, from an idle state: a record that starts it, records within it and a record that ends
   it. Its periods add up to the time from its start to its end less the time in which an answer was awaited.
   */
  lemma WholeTurnIsItsLengthLessWaiting(s: State, start: Record, turn: TurnId, records: seq<Record>)
    requires Tracked(s) && s.active == {} && start.timestamp.Some? && start.event.TaskStarted? && start.event.turn == Some(turn)
    requires StartOf(start) <= start.timestamp.value && Forward(start.timestamp.value, records) && records != []
    requires forall i :: 0 <= i < |records| - 1 ==> Within(records[i], turn)
    requires Ends(records[|records| - 1], turn)
    ensures records[|records| - 1].timestamp.Some?
    ensures var u := Advance(s, start);
            Sum(AdvanceAll(s, [start] + records).finished) - Sum(s.finished)
            == WorkEnd(AdvanceAll(u, records[..|records| - 1]), records[|records| - 1], turn)
               - StartOf(start) - WaitTime(u, start.timestamp.value, records)
  {
    hide Advance, StartOf, Within, Ends, WorkEnd, WaitTime, Tracked, Forward;
    StartedTurnIsOpen(s, start, turn);
    TurnTimeExcludesWaiting(Advance(s, start), start.timestamp.value, turn, records);
    assert ([start] + records)[1..] == records;
  }

  // ---------------------------------------------------------------- waiting

  /** If every record carries a time, no period is open while an answer is awaited. */
  lemma {:induction false} NothingRunsWhileWaiting(s: State, records: seq<Record>)
    requires WellKept(s) && (s.pending != {} ==> s.starts == map[])
    requires forall i :: 0 <= i < |records| ==> records[i].timestamp.Some?
    ensures var t := Fold(s, records); t.pending != {} ==> t.starts == map[]
    decreases |records|
  {
    if records != [] {
      StepKeepsWell(s, records[0]);
      NothingOpensWhileWaiting(s, records[0]);
      hide WellKept, Step;
      NothingRunsWhileWaiting(Step(s, records[0]), records[1..]);
    }
  }

  lemma NothingOpensWhileWaiting(s: State, r: Record)
    requires WellKept(s) && (s.pending != {} ==> s.starts == map[]) && r.timestamp.Some?
    ensures var t := Step(s, r); t.pending != {} ==> t.starts == map[]
  {
    hide Closing;
  }
}
