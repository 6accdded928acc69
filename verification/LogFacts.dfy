/**
 What the interpreter knows after a log, read off the records alone: which turn is active, what is asked and not yet
 answered, how the last turn ended and what the agent was last seen doing.
 */
module LogFacts {
  import opened Options
  import opened EventState
  import opened Latest

  // ---------------------------------------------------------------- what a whole log says

  /** Asked under the key (or pending before the log) and not answered since. */
  ghost predicate Pends(before: set<CallKey>, records: seq<Record>, key: CallKey) {
    SetAndNotCleared(key in before, (i: nat) => i < |records| && Asks(records[i].event, key),
                     (i: nat) => i < |records| && Answers(records[i].event, key), |records|)
  }

  /** Started (or active before the log) and since then neither ended nor superseded. */
  ghost predicate StaysActive(before: set<TurnId>, records: seq<Record>, turn: TurnId) {
    SetAndNotCleared(turn in before, (i: nat) => i < |records| && StartsTurn(records[i].event, turn),
                     (i: nat) => i < |records| && EndsTurn(records[i].event, turn), |records|)
  }

  ghost predicate LastEndedAs(records: seq<Record>, ending: Ending) {
    SetAndNotCleared(false, (i: nat) => i < |records| && EndsAs(records[i].event, ending),
                     (i: nat) => i < |records| && StartsOrEnds(records[i].event), |records|)
  }

  ghost predicate LastSeen(records: seq<Record>, activity: Activity) {
    SetAndNotCleared(false, (i: nat) => i < |records| && Shows(records[i].event, activity),
                     (i: nat) => i < |records| && DecidesActivity(records[i].event), |records|)
  }

  ghost predicate LastModel(records: seq<Record>, model: string) {
    SetAndNotCleared(false, (i: nat) => i < |records| && ModelNamed(records[i].event) == Some(model),
                     (i: nat) => i < |records| && ModelNamed(records[i].event).Some?, |records|)
  }

  ghost predicate LastSignal(records: seq<Record>, time: int) {
    SetAndNotCleared(false, (i: nat) => i < |records| && SignalTime(records[i]) == Some(time),
                     (i: nat) => i < |records| && SignalTime(records[i]).Some?, |records|)
  }

  // ---------------------------------------------------------------- whole logs

  lemma {:induction false} FoldOneMore(s: State, records: seq<Record>, k: nat)
    requires k < |records|
    ensures Fold(s, records[..k + 1]) == Step(Fold(s, records[..k]), records[k])
    decreases |records|
  {
    hide Step;
    if k > 0 {
      assert records[..k + 1][1..] == records[1..][..k] && records[..k][1..] == records[1..][..k - 1];
      FoldOneMore(Step(s, records[0]), records[1..], k - 1);
    }
  }

  /** From any state: what was pending or active before the log, and what its records say. */
  lemma PendingAndActive(s: State, records: seq<Record>)
    requires OneTurn(s.active)
    ensures forall key :: key in Fold(s, records).pending <==> Pends(s.pending, records, key)
    ensures forall turn :: turn in Fold(s, records).active <==> StaysActive(s.active, records, turn)
  {
    hide SetAndNotCleared, Fold, Advance, Asks, Answers, StartsTurn, EndsTurn;
    forall key ensures key in Fold(s, records).pending <==> Pends(s.pending, records, key) {
      KeyPends(s, records, key);
    }
    forall turn ensures turn in Fold(s, records).active <==> StaysActive(s.active, records, turn) {
      TurnStaysActive(s, records, turn);
    }
  }

  function At(s: State, records: seq<Record>, k: nat): State {
    if k <= |records| then Fold(s, records[..k]) else s
  }

  lemma WholeLog(s: State, records: seq<Record>)
    ensures At(s, records, |records|) == Fold(s, records) && At(s, records, 0) == s
  {
    assert records[..|records|] == records && records[..0] == [];
  }

  lemma KeyPends(s: State, records: seq<Record>, key: CallKey)
    ensures key in Fold(s, records).pending <==> Pends(s.pending, records, key)
  {
    hide SetAndNotCleared, Fold, Advance, Asks, Answers;
    WholeLog(s, records);
    forall k: nat | k < |records|
      ensures key in At(s, records, k + 1).pending
              <==> Asks(records[k].event, key) || (key in At(s, records, k).pending && !Answers(records[k].event, key))
    {
      FoldOneMore(s, records, k);
      AdvancePending(Fold(s, records[..k]), records[k], key);
    }
    LastDecides((k: nat) => key in At(s, records, k).pending, (i: nat) => i < |records| && Asks(records[i].event, key),
                (i: nat) => i < |records| && Answers(records[i].event, key), |records|);
  }

  ghost predicate OneTurn(active: set<TurnId>) {
    forall a, b :: a in active && b in active ==> a == b
  }

  lemma {:induction false} StaysOneTurn(s: State, records: seq<Record>, k: nat)
    requires OneTurn(s.active) && k <= |records|
    ensures OneTurn(At(s, records, k).active)
  {
    hide Advance, Fold, StartsTurn, EndsTurn;
    if k == 0 {
      WholeLog(s, records);
    } else {
      StaysOneTurn(s, records, k - 1);
      FoldOneMore(s, records, k - 1);
      AdvanceActive(Fold(s, records[..k - 1]), records[k - 1], 0);
    }
  }

  lemma TurnStaysActive(s: State, records: seq<Record>, turn: TurnId)
    requires OneTurn(s.active)
    ensures turn in Fold(s, records).active <==> StaysActive(s.active, records, turn)
  {
    hide SetAndNotCleared, Fold, Advance, StartsTurn, EndsTurn;
    WholeLog(s, records);
    forall k: nat | k < |records|
      ensures turn in At(s, records, k + 1).active
              <==> StartsTurn(records[k].event, turn) || (turn in At(s, records, k).active && !EndsTurn(records[k].event, turn))
    {
      FoldOneMore(s, records, k);
      StaysOneTurn(s, records, k);
      AdvanceActive(Fold(s, records[..k]), records[k], turn);
    }
    LastDecides((k: nat) => turn in At(s, records, k).active, (i: nat) => i < |records| && StartsTurn(records[i].event, turn),
                (i: nat) => i < |records| && EndsTurn(records[i].event, turn), |records|);
  }

  /** What a whole log comes to, from its records alone. */
  lemma LogDecides(records: seq<Record>)
    ensures var s := Fold(INITIAL, records);
            && (forall key :: key in s.pending <==> Pends({}, records, key))
            && (forall turn :: turn in s.active <==> StaysActive({}, records, turn))
            && (forall x :: s.ending == Some(x) <==> LastEndedAs(records, x))
            && (forall a :: s.activity == Some(a) <==> LastSeen(records, a))
            && (s.sawActivity <==> exists i :: 0 <= i < |records| && IsActivity(records[i].event))
            && (forall m :: s.model == Some(m) <==> LastModel(records, m))
            && (forall t :: s.lastSignal == Some(t) <==> LastSignal(records, t))
  {
    hide SetAndNotCleared, Fold, Pends, StaysActive, LastEndedAs, LastSeen, LastModel, LastSignal, IsActivity, ModelNamed, SignalTime;
    PendingAndActive(INITIAL, records);
    forall x ensures Fold(INITIAL, records).ending == Some(x) <==> LastEndedAs(records, x) { EndingIsLast(records, x); }
    forall a ensures Fold(INITIAL, records).activity == Some(a) <==> LastSeen(records, a) { ActivityIsLast(records, a); }
    forall m ensures Fold(INITIAL, records).model == Some(m) <==> LastModel(records, m) { ModelIsLast(records, m); }
    forall t ensures Fold(INITIAL, records).lastSignal == Some(t) <==> LastSignal(records, t) { SignalIsLast(records, t); }
    SawActivity(records, |records|);
    WholeLog(INITIAL, records);
  }

  lemma DisplayOneMore(records: seq<Record>, k: nat)
    requires k < |records|
    ensures var s, t, r := At(INITIAL, records, k), At(INITIAL, records, k + 1), records[k];
            && (forall x :: t.ending == Some(x) <==> EndsAs(r.event, x) || (s.ending == Some(x) && !StartsOrEnds(r.event)))
            && (forall a :: t.activity == Some(a) <==> Shows(r.event, a) || (s.activity == Some(a) && !DecidesActivity(r.event)))
            && (t.sawActivity <==> s.sawActivity || IsActivity(r.event))
            && t.model == Or(ModelNamed(r.event), s.model) && t.lastSignal == Or(SignalTime(r), s.lastSignal)
  {
    hide Fold, Advance, EndsAs, StartsOrEnds, Shows, DecidesActivity, IsActivity, ModelNamed, SignalTime;
    FoldOneMore(INITIAL, records, k);
    AdvanceDisplay(Fold(INITIAL, records[..k]), records[k]);
  }

  lemma EndingIsLast(records: seq<Record>, x: Ending)
    ensures Fold(INITIAL, records).ending == Some(x) <==> LastEndedAs(records, x)
  {
    hide SetAndNotCleared, At, EndsAs, StartsOrEnds, Shows, DecidesActivity, IsActivity, ModelNamed, SignalTime;
    WholeLog(INITIAL, records);
    forall k: nat | k < |records|
      ensures At(INITIAL, records, k + 1).ending == Some(x)
              <==> EndsAs(records[k].event, x) || (At(INITIAL, records, k).ending == Some(x) && !StartsOrEnds(records[k].event))
    {
      DisplayOneMore(records, k);
    }
    LastDecides((k: nat) => At(INITIAL, records, k).ending == Some(x), (i: nat) => i < |records| && EndsAs(records[i].event, x),
                (i: nat) => i < |records| && StartsOrEnds(records[i].event), |records|);
  }

  lemma ActivityIsLast(records: seq<Record>, a: Activity)
    ensures Fold(INITIAL, records).activity == Some(a) <==> LastSeen(records, a)
  {
    hide SetAndNotCleared, At, EndsAs, StartsOrEnds, Shows, DecidesActivity, IsActivity, ModelNamed, SignalTime;
    WholeLog(INITIAL, records);
    forall k: nat | k < |records|
      ensures At(INITIAL, records, k + 1).activity == Some(a)
              <==> Shows(records[k].event, a) || (At(INITIAL, records, k).activity == Some(a) && !DecidesActivity(records[k].event))
    {
      DisplayOneMore(records, k);
    }
    LastDecides((k: nat) => At(INITIAL, records, k).activity == Some(a), (i: nat) => i < |records| && Shows(records[i].event, a),
                (i: nat) => i < |records| && DecidesActivity(records[i].event), |records|);
  }

  lemma {:induction false} SawActivity(records: seq<Record>, k: nat)
    requires k <= |records|
    ensures At(INITIAL, records, k).sawActivity <==> exists i :: 0 <= i < k && IsActivity(records[i].event)
  {
    hide EndsAs, StartsOrEnds, Shows, DecidesActivity, IsActivity, ModelNamed, SignalTime, Fold;
    if k == 0 {
      WholeLog(INITIAL, records);
    } else {
      SawActivity(records, k - 1);
      DisplayOneMore(records, k - 1);
    }
  }

  lemma ModelIsLast(records: seq<Record>, m: string)
    ensures Fold(INITIAL, records).model == Some(m) <==> LastModel(records, m)
  {
    hide SetAndNotCleared, At, EndsAs, StartsOrEnds, Shows, DecidesActivity, IsActivity, ModelNamed, SignalTime;
    WholeLog(INITIAL, records);
    forall k: nat | k < |records|
      ensures At(INITIAL, records, k + 1).model == Some(m)
              <==> ModelNamed(records[k].event) == Some(m) || (At(INITIAL, records, k).model == Some(m) && !ModelNamed(records[k].event).Some?)
    {
      DisplayOneMore(records, k);
    }
    LastDecides((k: nat) => At(INITIAL, records, k).model == Some(m), (i: nat) => i < |records| && ModelNamed(records[i].event) == Some(m),
                (i: nat) => i < |records| && ModelNamed(records[i].event).Some?, |records|);
  }

  lemma SignalIsLast(records: seq<Record>, t: int)
    ensures Fold(INITIAL, records).lastSignal == Some(t) <==> LastSignal(records, t)
  {
    hide SetAndNotCleared, At, EndsAs, StartsOrEnds, Shows, DecidesActivity, IsActivity, ModelNamed, SignalTime;
    WholeLog(INITIAL, records);
    forall k: nat | k < |records|
      ensures At(INITIAL, records, k + 1).lastSignal == Some(t)
              <==> SignalTime(records[k]) == Some(t) || (At(INITIAL, records, k).lastSignal == Some(t) && !SignalTime(records[k]).Some?)
    {
      DisplayOneMore(records, k);
    }
    LastDecides((k: nat) => At(INITIAL, records, k).lastSignal == Some(t), (i: nat) => i < |records| && SignalTime(records[i]) == Some(t),
                (i: nat) => i < |records| && SignalTime(records[i]).Some?, |records|);
  }

  // ---------------------------------------------------------------- the period that a completion adds

  /** A time that the payload gives in whole seconds, in milliseconds. */
  function PayloadTime(seconds: Option<int>): Option<int> {
    if seconds.Some? && 0 < seconds.value && 1000 * seconds.value <= 9_223_372_036_854_775_807 then Some(1000 * seconds.value) else None
  }

  /** From the open period, or from the payload if the turn was never interrupted by a question. */
  function CompletedFrom(s: State, turn: TurnId, startedAt: Option<int>): Option<int> {
    if turn in s.starts then Some(s.starts[turn]) else if turn in s.split then None else PayloadTime(startedAt)
  }

  /** To the end that the payload gives, or else the record's time, or else so long after the start as the payload says. */
  predicate CompletedTo(from: int, completedAt: Option<int>, duration: Option<int>, at: Option<int>, to: int) {
    if PayloadTime(completedAt).Some? then to == PayloadTime(completedAt).value
    else if at.Some? then to == at.value
    else
      duration.Some?
      && to == (if from + duration.value > 9_223_372_036_854_775_807 then 9_223_372_036_854_775_807
                else if from + duration.value < -9_223_372_036_854_775_808 then -9_223_372_036_854_775_808
                else from + duration.value)
  }

  /** With or without a timestamp: the period from the turn's start to its end, if both are known and in order. */
  lemma CompletionAddsThePeriod(s: State, r: Record)
    requires r.event.TaskComplete? && r.event.turn.Some?
    ensures var turn, t := r.event.turn.value, Dispatch(s, r);
            var from := CompletedFrom(s, turn, r.event.startedAt);
            && turn !in t.active && turn !in t.starts && turn !in t.split
            && (forall to :: from.Some? && CompletedTo(from.value, r.event.completedAt, r.event.duration, r.timestamp, to) ==>
                  t.finished == if from.value <= to then s.finished + [Period(from.value, to, false)] else s.finished)
            && (from.None? || (forall to :: !CompletedTo(from.value, r.event.completedAt, r.event.duration, r.timestamp, to)) ==>
                  t.finished == s.finished)
  {
    assert s.finished + [] == s.finished;
    var turn := r.event.turn.value;
    var from := CompletedFrom(s, turn, r.event.startedAt);
    var end := Or(SecondsToMs(r.event.completedAt), Or(r.timestamp,
                  if from.Some? && r.event.duration.Some? then Some(Saturate(from.value + r.event.duration.value)) else None));
    if from.Some? && end.Some? {
      assert CompletedTo(from.value, r.event.completedAt, r.event.duration, r.timestamp, end.value);
    }
  }
}
