/**
 The time of a log and the periods of a turn, measured by the records alone: when something was asked and not yet
 answered, and when a turn was active, is what LogFacts reads off the records, not what the interpreter remembers.
 */
module TurnPeriods {
  import opened Options
  import opened EventState
  import opened LogFacts
  import opened Latest
  import opened Sequences
  import opened WorkTime

  /** Something was asked, before the log or in it, and is not answered at its end. */
  ghost predicate Waits(before: set<CallKey>, records: seq<Record>) {
    exists key :: Pends(before, records, key)
  }

  ghost predicate Runs(active: set<TurnId>, before: set<CallKey>, records: seq<Record>) {
    (exists turn :: StaysActive(active, records, turn)) && !Waits(before, records)
  }

  lemma LogState(s: State, records: seq<Record>)
    requires OneTurn(s.active)
    ensures AdvanceAll(s, records).pending != {} <==> Waits(s.pending, records)
    ensures Running(AdvanceAll(s, records)) <==> Runs(s.active, s.pending, records)
  {
    hide AdvanceAll, Fold, Pends, StaysActive;
    LimitKeepsTheNewest(s, records);
    var t := s.(finished := Last(s.finished, MAX_WORK_PERIODS));
    PendingAndActive(t, records);
    var u := AdvanceAll(s, records);
    assert u.pending == Fold(t, records).pending && u.active == Fold(t, records).active;
    assert u.pending != {} <==> exists key :: key in u.pending;
    assert u.active != {} <==> exists turn :: turn in u.active;
  }

  // ---------------------------------------------------------------- the time of a log

  /** The time in which something was asked and not answered: each record says how things stand until the next one. */
  ghost function TimeWaited(before: set<CallKey>, t0: int, records: seq<Record>): int
    decreases |records|
  {
    if records == [] then 0
    else
      var most := records[..|records| - 1];
      TimeWaited(before, t0, most) + (if Waits(before, most) then EndTime(t0, records) - EndTime(t0, most) else 0)
  }

  /** The time in which a turn was active and nothing was asked. */
  ghost function TimeRun(active: set<TurnId>, before: set<CallKey>, t0: int, records: seq<Record>): int
    decreases |records|
  {
    if records == [] then 0
    else
      var most := records[..|records| - 1];
      TimeRun(active, before, t0, most) + (if Runs(active, before, most) then EndTime(t0, records) - EndTime(t0, most) else 0)
  }

  lemma {:induction false} OneRecordMore(s: State, t0: int, records: seq<Record>)
    requires records != []
    ensures var most := records[..|records| - 1];
            var d := EndTime(t0, records) - EndTime(t0, most);
            && WaitTime(s, t0, records) == WaitTime(s, t0, most) + (if AdvanceAll(s, most).pending != {} then d else 0)
            && RunTime(s, t0, records) == RunTime(s, t0, most) + (if Running(AdvanceAll(s, most)) then d else 0)
    decreases |records|
  {
    hide Advance, Running;
    if |records| == 1 {
      assert records[..0] == [] && records[1..] == [];
    } else {
      assert records[..|records| - 1][1..] == records[1..][..|records| - 2];
      OneRecordMore(Advance(s, records[0]), Now(t0, records[0]), records[1..]);
    }
  }

  lemma {:induction false} TimesOfALog(s: State, t0: int, records: seq<Record>)
    requires OneTurn(s.active)
    ensures WaitTime(s, t0, records) == TimeWaited(s.pending, t0, records)
    ensures RunTime(s, t0, records) == TimeRun(s.active, s.pending, t0, records)
    decreases |records|
  {
    hide AdvanceAll, EndTime, Running, Waits, Runs;
    if records == [] {
      NoTime(s, t0);
    } else {
      OneRecordMore(s, t0, records);
      LogState(s, records[..|records| - 1]);
      TimesOfALog(s, t0, records[..|records| - 1]);
      hide WaitTime, RunTime;
    }
  }

  lemma NoTime(s: State, t0: int)
    ensures WaitTime(s, t0, []) == 0 && RunTime(s, t0, []) == 0
  {
  }

  /**
   The report of a log from its first byte adds up to the time in which, by its records, a turn was active and nothing
   was asked, less what was given up, and shifted by what payload times say.
   */
  lemma ReportOfALog(t0: int, records: seq<Record>, lastChange: int)
    requires Timed(records) && |AdvanceAll(INITIAL, records).finished| < MAX_WORK_PERIODS
    requires forall k :: k in AdvanceAll(INITIAL, records).starts ==> AdvanceAll(INITIAL, records).starts[k] <= lastChange
    ensures Sum(WorkPeriods(Fold(INITIAL, records), lastChange))
            == TimeRun({}, {}, t0, records) - LostTime(INITIAL, records) + ShiftTime(INITIAL, records)
               + (if Runs({}, {}, records) then lastChange - EndTime(t0, records) else 0)
  {
    hide AdvanceAll, Fold, RunTime, LostTime, ShiftTime, Timed, EndTime, WorkPeriods, TimeRun, Runs, Sum;
    ReportedTimeIsWorkTime(t0, records, lastChange);
    TimesOfALog(INITIAL, t0, records);
    LogState(INITIAL, records);
    LimitKeepsTheNewest(INITIAL, records);
    assert INITIAL.(finished := Last(INITIAL.finished, MAX_WORK_PERIODS)) == INITIAL;
  }

  // ---------------------------------------------------------------- the periods of one turn

  /** A log that begins with the start of the turn. */
  ghost predicate IsTurnLog(log: seq<Record>, turn: TurnId) {
    log != [] && Timed(log) && log[0].event.TaskStarted? && log[0].event.turn == Some(turn)
  }

  /** The turn's own start is not after the record of it, and the records are in the order of time. */
  ghost predicate InOrder(log: seq<Record>)
    requires log != [] && Timed(log) && log[0].event.TaskStarted?
  {
    && StartOf(log[0]) <= log[0].timestamp.value
    && (forall i :: 0 < i < |log| ==> log[i - 1].timestamp.value <= log[i].timestamp.value)
  }

  /** After the first k records something is asked and not answered. */
  ghost predicate Asked(log: seq<Record>, k: nat) {
    k <= |log| && Waits({}, log[..k])
  }

  /** When the stretch began in which the turn is after k records: with the turn, or with the last answer. */
  ghost function StretchStart(log: seq<Record>, k: nat): int
    requires 1 <= k <= |log| && Timed(log) && log[0].event.TaskStarted?
  {
    if k == 1 then StartOf(log[0])
    else if Asked(log, k - 1) then log[k - 1].timestamp.value
    else StretchStart(log, k - 1)
  }

  /** The stretches without a question that are over after k records, each ended by the record that asked, if not before it began. */
  ghost function Stretches(log: seq<Record>, k: nat): seq<Period>
    requires 1 <= k <= |log| && Timed(log) && log[0].event.TaskStarted?
  {
    if k == 1 then []
    else
      Stretches(log, k - 1)
      + (if !Asked(log, k - 1) && Asked(log, k) && StretchStart(log, k - 1) <= log[k - 1].timestamp.value
         then [Period(StretchStart(log, k - 1), log[k - 1].timestamp.value, false)] else [])
  }

  lemma {:induction false} StretchStartsInTime(log: seq<Record>, turn: TurnId, k: nat)
    requires IsTurnLog(log, turn) && InOrder(log) && 1 <= k <= |log|
    ensures StretchStart(log, k) <= log[k - 1].timestamp.value
  {
    hide Asked, StartOf;
    if k > 1 { StretchStartsInTime(log, turn, k - 1); }
  }

  /** What was pending before the turn plays no part: its first record answers everything. */
  lemma NothingFromBefore(before: set<CallKey>, log: seq<Record>)
    requires log != [] && log[0].event.TaskStarted?
    ensures Waits(before, log) <==> Waits({}, log)
  {
    hide SetAndNotCleared;
    forall key ensures Pends(before, log, key) <==> Pends({}, log, key) {
      var sets, clears := (i: nat) => i < |log| && Asks(log[i].event, key), (i: nat) => i < |log| && Answers(log[i].event, key);
      ClearedOnce(key in before, sets, clears, |log|, 0);
    }
  }

  /** How the interpreter stands in the middle of a turn: the periods so far, and the open one. */
  ghost predicate Follows(s: State, log: seq<Record>, turn: TurnId, k: nat, u: State)
    requires IsTurnLog(log, turn) && 1 <= k <= |log|
  {
    && Tracked(u) && u.active == {turn} && (u.pending != {} <==> Asked(log, k))
    && u.finished == s.finished + Stretches(log, k)
    && u.starts == (if Asked(log, k) then map[] else map[turn := StretchStart(log, k)])
    && (Asked(log, k) ==> turn in u.split)
  }

  lemma AdvanceOneMore(s: State, log: seq<Record>, k: nat)
    requires k < |log|
    ensures AdvanceAll(s, log[..k + 1]) == Advance(AdvanceAll(s, log[..k]), log[k])
    decreases |log|
  {
    hide Advance;
    if k > 0 {
      assert log[..k + 1][1..] == log[1..][..k] && log[..k][1..] == log[1..][..k - 1];
      AdvanceOneMore(Advance(s, log[0]), log[1..], k - 1);
    }
  }

  lemma AskedIsPending(s: State, log: seq<Record>, k: nat)
    requires OneTurn(s.active) && 1 <= k <= |log| && log[0].event.TaskStarted?
    ensures AdvanceAll(s, log[..k]).pending != {} <==> Asked(log, k)
  {
    hide AdvanceAll, Waits, Running;
    LogState(s, log[..k]);
    NothingFromBefore(s.pending, log[..k]);
  }

  lemma WithinOnlyAsks(u: State, r: Record, turn: TurnId)
    requires u.active == {turn} && u.starts.Keys <= {turn} && Within(r, turn)
    ensures var t := Dispatch(u, r); t.active == u.active && t.starts == u.starts && t.finished == u.finished
    ensures turn in u.split ==> turn in Dispatch(u, r).split
  {
    hide SecondsToMs, Saturate, Closing;
    assert u.finished + [] == u.finished;
    match r.event
    case TaskComplete(Some(t), _, _, _) =>
      assert t !in u.starts;
      assert u.starts - {t} == u.starts;
    case TurnAborted(Some(t)) =>
      assert t !in u.starts;
      assert u.starts - {t} == u.starts;
    case _ =>
  }

  lemma BoundaryOfATurn(t: State, wasWaiting: bool, at: int, turn: TurnId)
    requires t.active == {turn} && t.starts.Keys == (if wasWaiting then {} else {turn})
    ensures var u := Boundary(wasWaiting, t, Some(at));
            && u.active == t.active && u.pending == t.pending
            && u.finished == t.finished + (if !wasWaiting && t.pending != {} && t.starts[turn] <= at then [Period(t.starts[turn], at, false)] else [])
            && u.starts == (if t.pending != {} then map[] else if wasWaiting then map[turn := at] else t.starts)
            && (t.pending != {} && !wasWaiting ==> turn in u.split) && (turn in t.split ==> turn in u.split)
  {
    assert t.finished + [] == t.finished;
    if !wasWaiting {
      OpenOne(t.starts, turn, at);
      ClosingOne(t.starts, t.starts.Keys, Some(at));
    } else {
      assert t.starts == map[];
    }
  }

  lemma FollowsOneMore(s: State, log: seq<Record>, turn: TurnId, k: nat)
    requires Tracked(s) && s.active == {} && IsTurnLog(log, turn) && 1 <= k < |log| && Within(log[k], turn)
    requires Follows(s, log, turn, k, AdvanceAll(s, log[..k]))
    ensures Follows(s, log, turn, k + 1, AdvanceAll(s, log[..k + 1]))
  {
    hide AdvanceAll, Advance, Dispatch, Boundary, Within, Asked, StartOf;
    var u, r := AdvanceAll(s, log[..k]), log[k];
    AskedIsPending(s, log, k + 1);
    AdvanceOneMore(s, log, k);
    WithinOnlyAsks(u, r, turn);
    BoundaryOfATurn(Dispatch(u, r), u.pending != {}, r.timestamp.value, turn);
    AdvanceCrosses(u, r);
    assert s.finished + (Stretches(log, k) + []) == s.finished + Stretches(log, k) + [];
  }

  lemma AdvanceCrosses(u: State, r: Record)
    ensures var a, b := Advance(u, r), Boundary(u.pending != {}, Dispatch(u, r), r.timestamp);
            a.active == b.active && a.pending == b.pending && a.finished == b.finished && a.starts == b.starts && a.split == b.split
  {
    hide Dispatch, Boundary;
  }

  lemma TurnBegins(s: State, log: seq<Record>, turn: TurnId)
    requires Tracked(s) && s.active == {} && IsTurnLog(log, turn)
    ensures Follows(s, log, turn, 1, AdvanceAll(s, log[..1]))
  {
    hide Advance, Asked, StartOf, Tracked;
    assert log[..1] == [log[0]] && [log[0]][1..] == [];
    StartedTurnIsOpen(s, log[0], turn);
    assert OneTurn(s.active);
    AskedIsPending(s, log, 1);
    var u := AdvanceAll(s, log[..1]);
    assert u == Advance(s, log[0]);
    OpenAloneIsOpen(u, turn);
    assert s.finished + [] == s.finished;
  }

  lemma OpenAloneIsOpen(u: State, turn: TurnId)
    requires Tracked(u) && u.active == {turn} && u.pending == {} && turn in u.starts
    ensures u.starts == map[turn := u.starts[turn]]
  {
  }

  lemma {:induction false} TurnSoFar(s: State, log: seq<Record>, turn: TurnId, k: nat)
    requires Tracked(s) && s.active == {} && IsTurnLog(log, turn) && 1 <= k <= |log|
    requires forall i :: 0 < i < k ==> Within(log[i], turn)
    ensures Follows(s, log, turn, k, AdvanceAll(s, log[..k]))
  {
    hide AdvanceAll, Within, Follows, Tracked, IsTurnLog;
    if k == 1 {
      TurnBegins(s, log, turn);
    } else {
      TurnSoFar(s, log, turn, k - 1);
      FollowsOneMore(s, log, turn, k - 1);
    }
  }

  /** The stretches of a whole turn: those that a question ended and, if nothing is asked then, the one that its end closes. */
  ghost function TurnStretches(log: seq<Record>, turn: TurnId): seq<Period>
    requires |log| >= 2 && Timed(log) && log[0].event.TaskStarted? && Ends(log[|log| - 1], turn)
  {
    var n, end := |log| - 1, EndOf(log[|log| - 1]);
    Stretches(log, n) + (if !Asked(log, n) && StretchStart(log, n) <= end then [Period(StretchStart(log, n), end, false)] else [])
  }

  /**
   The periods of a turn are exactly the stretches of its time in which nothing was asked, in their order: for any log
   that starts the turn when none is active, stays within it and ends it, with any questions and answers.
   */
  lemma PeriodsAreTheStretches(s: State, log: seq<Record>, turn: TurnId)
    requires Tracked(s) && s.active == {} && IsTurnLog(log, turn) && |log| >= 2
    requires forall i :: 0 < i < |log| - 1 ==> Within(log[i], turn)
    requires Ends(log[|log| - 1], turn)
    ensures AdvanceAll(s, log).finished == s.finished + TurnStretches(log, turn)
    ensures AdvanceAll(s, log).active == {} && AdvanceAll(s, log).pending == {}
  {
    hide AdvanceAll, Advance, Within, Asked, StartOf, EndOf, Stretches, StretchStart;
    var n := |log| - 1;
    TurnSoFar(s, log, turn, n);
    AdvanceOneMore(s, log, n);
    assert log[..n + 1] == log;
    var u := AdvanceAll(s, log[..n]);
    EndClosesTheStretch(u, log[n], turn);
    var end := EndOf(log[n]);
    var last := if turn in u.starts && u.starts[turn] <= end then [Period(u.starts[turn], end, false)] else [];
    assert s.finished + (Stretches(log, n) + last) == s.finished + Stretches(log, n) + last;
  }

  lemma EndClosesTheStretch(u: State, r: Record, turn: TurnId)
    requires u.active == {turn} && u.starts.Keys == (if u.pending == {} then {turn} else {}) && r.timestamp.Some? && Ends(r, turn)
    requires u.pending != {} ==> turn in u.split
    ensures var v := Advance(u, r);
            && v.active == {} && v.pending == {}
            && v.finished == u.finished + (if turn in u.starts && u.starts[turn] <= EndOf(r) then [Period(u.starts[turn], EndOf(r), false)] else [])
  {
    hide Closing, Saturate;
    assert u.finished + [] == u.finished;
    AdvanceCrosses(u, r);
    hide Advance;
  }

  /** The time in which, by the records, something was asked and not answered. */
  ghost function TimeAsked(log: seq<Record>, k: nat): int
    requires k <= |log| && Timed(log)
  {
    if k <= 1 then 0
    else TimeAsked(log, k - 1) + (if Asked(log, k - 1) then log[k - 1].timestamp.value - log[k - 2].timestamp.value else 0)
  }

  lemma {:induction false} StretchesAddUp(log: seq<Record>, turn: TurnId, k: nat)
    requires IsTurnLog(log, turn) && InOrder(log) && 1 <= k <= |log| && !Asked(log, 1)
    ensures Sum(Stretches(log, k)) + (if Asked(log, k) then 0 else log[k - 1].timestamp.value - StretchStart(log, k))
            == log[k - 1].timestamp.value - StartOf(log[0]) - TimeAsked(log, k)
  {
    hide Asked, StartOf, Sum;
    if k == 1 {
      assert Sum([]) == 0 by { SumOfNone(); }
    } else {
      StretchesAddUp(log, turn, k - 1);
      StretchStartsInTime(log, turn, k - 1);
      var p := Period(StretchStart(log, k - 1), log[k - 1].timestamp.value, false);
      SumOfOne(p);
      SumOfBoth(Stretches(log, k - 1), [p]);
      assert Stretches(log, k - 1) + [] == Stretches(log, k - 1);
    }
  }

  lemma SumOfNone()
    ensures Sum([]) == 0
  {
  }

  lemma SumOfOne(p: Period)
    ensures Sum([p]) == p.end - p.start
  {
    assert [p][..0] == [];
  }

  lemma NothingAskedAtFirst(log: seq<Record>)
    requires log != [] && log[0].event.TaskStarted?
    ensures !Asked(log, 1)
  {
    assert INITIAL.active == {};
    AskedIsPending(INITIAL, log, 1);
    assert log[..1] == [log[0]] && [log[0]][1..] == [];
    assert AdvanceAll(INITIAL, log[..1]) == Advance(INITIAL, log[0]);
    AdvanceCrosses(INITIAL, log[0]);
    hide Advance, AdvanceAll, Closing, Asked;
  }

  /** Where the turn's time ends: at its end, if that is not before its last stretch, or at its last record if something is asked. */
  ghost function TurnEnd(log: seq<Record>, turn: TurnId): int
    requires IsTurnLog(log, turn) && |log| >= 2 && Ends(log[|log| - 1], turn)
  {
    var last := log[|log| - 1];
    if Asked(log, |log| - 1) then last.timestamp.value
    else if EndOf(last) < StretchStart(log, |log| - 1) then StretchStart(log, |log| - 1)
    else EndOf(last)
  }

  /** The lengths of a turn's periods add up to its own length less the time in which, by the records, something was asked. */
  lemma WholeTurnIsItsLengthLessAsking(s: State, log: seq<Record>, turn: TurnId)
    requires Tracked(s) && s.active == {} && IsTurnLog(log, turn) && |log| >= 2
    requires forall i :: 0 < i < |log| - 1 ==> Within(log[i], turn)
    requires Ends(log[|log| - 1], turn) && InOrder(log)
    ensures Sum(AdvanceAll(s, log).finished) == Sum(s.finished) + TurnEnd(log, turn) - StartOf(log[0]) - TimeAsked(log, |log|)
  {
    hide AdvanceAll, Within, Sum, TurnStretches, TurnEnd, StartOf, TimeAsked;
    PeriodsAreTheStretches(s, log, turn);
    StretchesOfTheTurnAddUp(log, turn);
    SumOfBoth(s.finished, TurnStretches(log, turn));
  }

  lemma StretchesOfTheTurnAddUp(log: seq<Record>, turn: TurnId)
    requires IsTurnLog(log, turn) && |log| >= 2 && Ends(log[|log| - 1], turn) && InOrder(log)
    ensures Sum(TurnStretches(log, turn)) == TurnEnd(log, turn) - StartOf(log[0]) - TimeAsked(log, |log|)
  {
    hide Asked, StartOf, EndOf, Sum, Stretches, StretchStart;
    var n, end := |log| - 1, EndOf(log[|log| - 1]);
    NothingAskedAtFirst(log);
    StretchesAddUp(log, turn, n);
    var p := Period(StretchStart(log, n), end, false);
    SumOfOne(p);
    SumOfBoth(Stretches(log, n), [p]);
    assert Stretches(log, n) + [] == Stretches(log, n);
  }

  // ---------------------------------------------------------------- moment by moment

  ghost predicate Covers(ps: seq<Period>, x: int) {
    exists i :: 0 <= i < |ps| && ps[i].start <= x < ps[i].end
  }

  /** At moment x, before record i and not before the one ahead of it, the turn was on and nothing was asked. */
  ghost predicate WorkedAt(log: seq<Record>, i: nat, x: int)
    requires i < |log| && Timed(log) && log[0].event.TaskStarted?
  {
    && (i > 0 ==> !Asked(log, i))
    && (if i == 0 then StartOf(log[0]) else log[i - 1].timestamp.value) <= x < log[i].timestamp.value
  }

  /** A moment lies in a stretch, closed or still open, exactly if no question was open then. */
  lemma {:induction false} StretchesCoverTheWork(log: seq<Record>, turn: TurnId, k: nat, x: int)
    requires IsTurnLog(log, turn) && InOrder(log) && 1 <= k <= |log|
    ensures (Covers(Stretches(log, k), x) || (!Asked(log, k) && StretchStart(log, k) <= x < log[k - 1].timestamp.value))
            <==> exists i :: 0 <= i < k && WorkedAt(log, i, x)
  {
    hide Asked, StartOf;
    if k == 1 {
      NothingAskedAtFirst(log);
      assert (exists i :: 0 <= i < 1 && WorkedAt(log, i, x)) <==> WorkedAt(log, 0, x);
    } else {
      StretchesCoverTheWork(log, turn, k - 1, x);
      StretchStartsInTime(log, turn, k - 1);
      var p := Period(StretchStart(log, k - 1), log[k - 1].timestamp.value, false);
      CoversOneMore(Stretches(log, k - 1), p, x);
      assert Stretches(log, k - 1) + [] == Stretches(log, k - 1);
      assert (exists i :: 0 <= i < k && WorkedAt(log, i, x)) <==> (WorkedAt(log, k - 1, x) || exists i :: 0 <= i < k - 1 && WorkedAt(log, i, x));
      hide Covers;
    }
  }

  lemma CoversOneMore(ps: seq<Period>, p: Period, x: int)
    ensures Covers(ps + [p], x) <==> Covers(ps, x) || p.start <= x < p.end
  {
    assert (ps + [p])[|ps|] == p;
    if Covers(ps, x) {
      var i :| 0 <= i < |ps| && ps[i].start <= x < ps[i].end;
      assert (ps + [p])[i] == ps[i];
    }
  }
}
