/**
 The interpreter of an agent's event log: one record at a time it follows which turn is active, which
 input requests are pending, and the periods in which the agent worked.
 */
module EventState {
  import opened Options
  import opened Sequences
  import opened Sorting
  import Timestamps

  const MAX_WORK_PERIODS := 200

  type TurnId = nat       // a turn id string; only equality and order matter
  type CallKey = string

  datatype Activity = Thinking | UsingTools | Editing | RunningCommand | Searching | Delegating

  datatype Ending = Completed | Interrupted

  datatype Period = Period(start: int, end: int, ongoing: bool)

  datatype Event =
    | TurnContext(model: Option<string>)
    | TaskStarted(turn: Option<TurnId>, startedAt: Option<int>)
    | TaskComplete(turn: Option<TurnId>, startedAt: Option<int>, completedAt: Option<int>, duration: Option<int>)
    | TurnAborted(turn: Option<TurnId>)
    | SideActivity(activity: Activity)                                       // web search, sub-agent
    | Reasoning
    | ToolCall(call: Option<CallKey>, name: Option<string>, asks: bool, activity: Activity)
    | ToolOutput(call: Option<CallKey>)
    | InputRequest(call: Option<CallKey>, fallback: CallKey)
    | InputResponse(call: Option<CallKey>)
    | Other(signal: bool)                                                    // assistant messages and the rest

  datatype Record = Record(timestamp: Option<int>, event: Event)

  datatype State = State(
    active: set<TurnId>,
    starts: map<TurnId, int>,
    split: set<TurnId>,
    pending: set<CallKey>,
    finished: seq<Period>,
    lastSignal: Option<int>,
    ending: Option<Ending>,
    activity: Option<Activity>,
    sawActivity: bool,
    model: Option<string>)

  const INITIAL := State({}, map[], {}, {}, [], None, None, None, false, None)

  // ---------------------------------------------------------------- one record

  function Saturate(x: int): int {
    if x > Timestamps.MAX_I64 then Timestamps.MAX_I64 else if x < Timestamps.MIN_I64 then Timestamps.MIN_I64 else x
  }

  function SecondsToMs(seconds: Option<int>): Option<int> {
    if seconds.Some? && seconds.value > 0 && seconds.value * 1000 <= Timestamps.MAX_I64 then Some(seconds.value * 1000) else None
  }

  function Or<T>(a: Option<T>, b: Option<T>): Option<T> {
    if a.Some? then a else b
  }

  /** What counts as a sign of life of the agent itself. */
  predicate Signals(e: Event) {
    e.Reasoning? || e.ToolCall? || e.ToolOutput? || (e.Other? && e.signal)
  }

  function InputKey(call: Option<CallKey>, fallback: Option<CallKey>): CallKey {
    if call.Some? then call.value else if fallback.Some? then fallback.value else "agent-input"
  }

  lemma {:induction false} LeastOf(keys: set<nat>) returns (k: nat)
    requires keys != {}
    ensures k in keys && forall x :: x in keys ==> k <= x
  {
    k :| k in keys;
    var others := keys - {k};
    assert keys == others + {k};
    if others != {} {
      var m := LeastOf(others);
      if m < k { k := m; }
    }
  }

  lemma LeastExists(keys: set<nat>)
    requires keys != {}
    ensures exists k :: k in keys && forall x :: x in keys ==> k <= x
  {
    var k := LeastOf(keys);
    assert k in keys && forall x :: x in keys ==> k <= x;
  }

  function Least(keys: set<nat>): (k: nat)
    requires keys != {}
    ensures k in keys && forall x :: x in keys ==> k <= x
  {
    LeastExists(keys);
    var k :| k in keys && forall x :: x in keys ==> k <= x;
    k
  }

  /** The period from start to end, unless it would end before it starts. */
  function Spell(start: int, end: Option<int>): seq<Period> {
    if end.Some? && end.value >= start then [Period(start, end.value, false)] else []
  }

  /** The open starts of the turns in who, closed at end, in the order of turn ids. */
  function Closing(starts: map<TurnId, int>, who: set<TurnId>, end: Option<int>): seq<Period>
    decreases starts.Keys
  {
    if starts == map[] then []
    else
      var k := Least(starts.Keys);
      assert k in starts.Keys && k !in (starts - {k}).Keys;
      (if k in who then Spell(starts[k], end) else []) + Closing(starts - {k}, who, end)
  }

  function Started(s: State, turn: TurnId, startedAt: Option<int>, at: Option<int>): State {
    // A new turn supersedes an interrupted turn without a terminal event.
    var t := if turn in s.active then s
             else s.(finished := s.finished + Closing(s.starts, s.active, s.lastSignal), starts := map[], active := {});
    var started := Or(SecondsToMs(startedAt), at);
    t.(starts := if started.Some? then t.starts[turn := started.value] else t.starts, active := t.active + {turn})
  }

  function Finished(s: State, turn: TurnId, startedAt: Option<int>, completedAt: Option<int>, duration: Option<int>,
                    at: Option<int>): State {
    var started := if turn in s.starts then Some(s.starts[turn])
                   else if turn in s.split then None
                   else SecondsToMs(startedAt);
    var guess := if started.Some? && duration.Some? then Some(Saturate(started.value + duration.value)) else None;
    var ended := Or(SecondsToMs(completedAt), Or(at, guess));
    s.(active := s.active - {turn}, split := s.split - {turn}, starts := s.starts - {turn},
       finished := s.finished + (if started.Some? then Spell(started.value, ended) else []))
  }

  function Aborted(s: State, turn: Option<TurnId>, at: Option<int>): State {
    if turn.None? then s.(active := {}, starts := map[])
    else
      s.(active := s.active - {turn.value}, starts := s.starts - {turn.value},
         finished := s.finished + (if turn.value in s.starts then Spell(s.starts[turn.value], at) else []))
  }

  function Dispatch(s: State, r: Record): State {
    match r.event
    case TurnContext(model) => s.(model := Or(model, s.model))
    case TaskStarted(turn, startedAt) =>
      (if turn.Some? then Started(s, turn.value, startedAt, r.timestamp) else s)
        .(ending := None, activity := Some(Thinking), sawActivity := true, pending := {})
    case TaskComplete(turn, startedAt, completedAt, duration) =>
      (if turn.Some? then Finished(s, turn.value, startedAt, completedAt, duration, r.timestamp) else s)
        .(ending := Some(Completed), activity := None, pending := {})
    case TurnAborted(turn) => Aborted(s, turn, r.timestamp).(ending := Some(Interrupted), activity := None, pending := {})
    case SideActivity(activity) => s.(activity := Some(activity), sawActivity := true)
    case Reasoning => s.(activity := Some(Thinking), sawActivity := true)
    case ToolCall(call, name, asks, activity) =>
      if asks then s.(pending := s.pending + {InputKey(call, name)}, activity := None, sawActivity := true)
      else s.(activity := Some(activity), sawActivity := true)
    case ToolOutput(call) => if call.Some? then s.(pending := s.pending - {call.value}) else s
    case InputRequest(call, fallback) =>
      s.(pending := s.pending + {InputKey(call, Some(fallback))}, activity := None, sawActivity := true)
    case InputResponse(call) => s.(pending := if call.Some? then s.pending - {call.value} else {})
    case Other(_) => s
  }

  function Resumed(active: set<TurnId>, starts: map<TurnId, int>, at: int): map<TurnId, int> {
    map id | id in active + starts.Keys :: if id in starts then starts[id] else at
  }

  /** Work pauses when the first input request appears and resumes when the last one is gone. */
  function Boundary(wasWaiting: bool, s: State, at: Option<int>): State {
    if at.None? || wasWaiting == (s.pending != {}) then s
    else if !wasWaiting then
      s.(split := s.split + s.starts.Keys, finished := s.finished + Closing(s.starts, s.starts.Keys, at), starts := map[])
    else
      s.(starts := Resumed(s.active, s.starts, at.value))
  }

  function Advance(s: State, r: Record): State {
    var t := Boundary(s.pending != {}, Dispatch(s, r), r.timestamp);
    if Signals(r.event) then t.(lastSignal := Or(r.timestamp, t.lastSignal)) else t
  }

  function Step(s: State, r: Record): State {
    var t := Advance(s, r);
    t.(finished := Last(t.finished, MAX_WORK_PERIODS))
  }

  function Fold(s: State, records: seq<Record>): State
    decreases |records|
  {
    if records == [] then s else Fold(Step(s, records[0]), records[1..])
  }

  lemma OneMoreResumed(done: set<TurnId>, starts: map<TurnId, int>, at: int, turn: TurnId)
    ensures var r := Resumed(done, starts, at);
            Resumed(done + {turn}, starts, at) == if turn in r then r else r[turn := at]
  {
    var r := Resumed(done, starts, at);
    var r' := Resumed(done + {turn}, starts, at);
    assert r'.Keys == r.Keys + {turn};
  }

  // ---------------------------------------------------------------- what single records say

  /** The record asks for input under the key: its call id, or else the tool's name or the kind of request. */
  predicate Asks(e: Event, key: CallKey) {
    match e
    case ToolCall(call, name, asks, _) =>
      asks && (call == Some(key) || (call.None? && (name == Some(key) || (name.None? && key == "agent-input"))))
    case InputRequest(call, fallback) => call == Some(key) || (call.None? && fallback == key)
    case _ => false
  }

  /** The record answers the key, or everything: a turn starts or ends, or an answer names no call. */
  predicate Answers(e: Event, key: CallKey) {
    match e
    case TaskStarted(_, _) => true
    case TaskComplete(_, _, _, _) => true
    case TurnAborted(_) => true
    case ToolOutput(call) => call == Some(key)
    case InputResponse(call) => call.None? || call == Some(key)
    case _ => false
  }

  predicate StartsTurn(e: Event, turn: TurnId) {
    e.TaskStarted? && e.turn == Some(turn)
  }

  /** Another turn starts, this one ends, or a turn without a name is aborted. */
  predicate EndsTurn(e: Event, turn: TurnId) {
    match e
    case TaskStarted(t, _) => t.Some? && t != Some(turn)
    case TaskComplete(t, _, _, _) => t == Some(turn)
    case TurnAborted(t) => t.None? || t == Some(turn)
    case _ => false
  }

  predicate EndsAs(e: Event, ending: Ending) {
    match ending
    case Completed => e.TaskComplete?
    case Interrupted => e.TurnAborted?
  }

  predicate StartsOrEnds(e: Event) {
    e.TaskStarted? || e.TaskComplete? || e.TurnAborted?
  }

  predicate Shows(e: Event, activity: Activity) {
    match e
    case TaskStarted(_, _) => activity == Thinking
    case Reasoning => activity == Thinking
    case SideActivity(a) => a == activity
    case ToolCall(_, _, asks, a) => !asks && a == activity
    case _ => false
  }

  /** The record decides what the agent is seen doing, if only that it is doing nothing. */
  predicate DecidesActivity(e: Event) {
    StartsOrEnds(e) || e.Reasoning? || e.SideActivity? || e.ToolCall? || e.InputRequest?
  }

  predicate IsActivity(e: Event) {
    e.TaskStarted? || e.Reasoning? || e.SideActivity? || e.ToolCall? || e.InputRequest?
  }

  function ModelNamed(e: Event): Option<string> {
    if e.TurnContext? then e.model else None
  }

  function SignalTime(r: Record): Option<int> {
    if r.event.Reasoning? || r.event.ToolCall? || r.event.ToolOutput? || (r.event.Other? && r.event.signal) then r.timestamp else None
  }

  // ---------------------------------------------------------------- and what one record changes

  /** What is said here does not change when work pauses or resumes. */
  lemma BoundaryKeeps(wasWaiting: bool, t: State, at: Option<int>)
    ensures var u := Boundary(wasWaiting, t, at);
            && u.pending == t.pending && u.active == t.active && u.ending == t.ending && u.activity == t.activity
            && u.sawActivity == t.sawActivity && u.model == t.model && u.lastSignal == t.lastSignal
  {
    hide Closing, Resumed;
  }

  lemma AdvanceIsDispatch(s: State, r: Record)
    ensures var t, u := Dispatch(s, r), Advance(s, r);
            && u.pending == t.pending && u.active == t.active && u.ending == t.ending && u.activity == t.activity
            && u.sawActivity == t.sawActivity && u.model == t.model && u.lastSignal == Or(SignalTime(r), t.lastSignal)
  {
    hide Dispatch, Boundary;
    BoundaryKeeps(s.pending != {}, Dispatch(s, r), r.timestamp);
  }

  lemma AdvancePending(s: State, r: Record, key: CallKey)
    ensures key in Advance(s, r).pending <==> Asks(r.event, key) || (key in s.pending && !Answers(r.event, key))
  {
    AdvanceIsDispatch(s, r);
    DispatchPending(s, r, key);
    hide Advance, Dispatch, SignalTime, Asks, Answers;
  }

  lemma DispatchPending(s: State, r: Record, key: CallKey)
    ensures key in Dispatch(s, r).pending <==> Asks(r.event, key) || (key in s.pending && !Answers(r.event, key))
  {
    hide Closing, Spell, SecondsToMs, Saturate, Or;
  }

  lemma AdvanceActive(s: State, r: Record, turn: TurnId)
    requires forall a, b :: a in s.active && b in s.active ==> a == b
    ensures turn in Advance(s, r).active <==> StartsTurn(r.event, turn) || (turn in s.active && !EndsTurn(r.event, turn))
    ensures forall a, b :: a in Advance(s, r).active && b in Advance(s, r).active ==> a == b
  {
    AdvanceIsDispatch(s, r);
    DispatchActive(s, r);
    hide Advance, Dispatch, SignalTime;
  }

  lemma DispatchActive(s: State, r: Record)
    ensures Dispatch(s, r).active
            == match r.event
               case TaskStarted(Some(turn), _) => if turn in s.active then s.active else {turn}
               case TaskComplete(Some(turn), _, _, _) => s.active - {turn}
               case TurnAborted(turn) => if turn.Some? then s.active - {turn.value} else {}
               case _ => s.active
  {
    hide Closing, Spell, SecondsToMs, Saturate, Or, InputKey;
    if r.event.TaskStarted? && r.event.turn.Some? && r.event.turn.value in s.active {
      assert s.active + {r.event.turn.value} == s.active;
    }
    assert forall t: TurnId :: {} + {t} == {t};
  }

  lemma AdvanceDisplay(s: State, r: Record)
    ensures forall x :: Advance(s, r).ending == Some(x) <==> EndsAs(r.event, x) || (s.ending == Some(x) && !StartsOrEnds(r.event))
    ensures forall a :: Advance(s, r).activity == Some(a) <==> Shows(r.event, a) || (s.activity == Some(a) && !DecidesActivity(r.event))
    ensures Advance(s, r).sawActivity <==> s.sawActivity || IsActivity(r.event)
    ensures Advance(s, r).model == Or(ModelNamed(r.event), s.model)
    ensures Advance(s, r).lastSignal == Or(SignalTime(r), s.lastSignal)
  {
    AdvanceIsDispatch(s, r);
    DispatchEnding(s, r);
    DispatchActivity(s, r);
    DispatchNames(s, r);
    hide Advance, Dispatch, SignalTime, EndsAs, StartsOrEnds, Shows, DecidesActivity, IsActivity, ModelNamed;
  }

  lemma DispatchEnding(s: State, r: Record)
    ensures forall x :: Dispatch(s, r).ending == Some(x) <==> EndsAs(r.event, x) || (s.ending == Some(x) && !StartsOrEnds(r.event))
  {
    hide Started, Finished, Aborted, InputKey;
    DispatchLeaves(s, r);
  }

  lemma DispatchActivity(s: State, r: Record)
    ensures forall a :: Dispatch(s, r).activity == Some(a) <==> Shows(r.event, a) || (s.activity == Some(a) && !DecidesActivity(r.event))
    ensures Dispatch(s, r).sawActivity <==> s.sawActivity || IsActivity(r.event)
  {
    hide Started, Finished, Aborted, InputKey;
    DispatchLeaves(s, r);
  }

  lemma DispatchNames(s: State, r: Record)
    ensures Dispatch(s, r).model == Or(ModelNamed(r.event), s.model) && Dispatch(s, r).lastSignal == s.lastSignal
  {
    hide Started, Finished, Aborted, InputKey;
    DispatchLeaves(s, r);
  }

  /** Starting and ending turns touches none of what is displayed. */
  lemma DispatchLeaves(s: State, r: Record)
    ensures forall turn, a, at :: SameDisplay(Started(s, turn, a, at), s)
    ensures forall turn, a, b, c, at :: SameDisplay(Finished(s, turn, a, b, c, at), s)
    ensures forall turn, at :: SameDisplay(Aborted(s, turn, at), s)
  {
    hide Closing, Spell, SecondsToMs, Saturate, Or;
  }

  /** All that one record says about turns, questions, and what is shown. */
  lemma RecordDecides(s: State, r: Record)
    ensures forall key :: key in Advance(s, r).pending <==> Asks(r.event, key) || (key in s.pending && !Answers(r.event, key))
    ensures (forall a, b :: a in s.active && b in s.active ==> a == b) ==>
              forall turn :: turn in Advance(s, r).active <==> StartsTurn(r.event, turn) || (turn in s.active && !EndsTurn(r.event, turn))
    ensures forall x :: Advance(s, r).ending == Some(x) <==> EndsAs(r.event, x) || (s.ending == Some(x) && !StartsOrEnds(r.event))
    ensures forall a :: Advance(s, r).activity == Some(a) <==> Shows(r.event, a) || (s.activity == Some(a) && !DecidesActivity(r.event))
    ensures Advance(s, r).sawActivity <==> s.sawActivity || IsActivity(r.event)
    ensures Advance(s, r).model == Or(ModelNamed(r.event), s.model) && Advance(s, r).lastSignal == Or(SignalTime(r), s.lastSignal)
  {
    hide Advance, Asks, Answers, StartsTurn, EndsTurn, EndsAs, Shows, StartsOrEnds, DecidesActivity, IsActivity, ModelNamed, SignalTime;
    forall key ensures key in Advance(s, r).pending <==> Asks(r.event, key) || (key in s.pending && !Answers(r.event, key)) {
      AdvancePending(s, r, key);
    }
    if forall a, b :: a in s.active && b in s.active ==> a == b {
      forall turn ensures turn in Advance(s, r).active <==> StartsTurn(r.event, turn) || (turn in s.active && !EndsTurn(r.event, turn)) {
        AdvanceActive(s, r, turn);
      }
    }
    AdvanceDisplay(s, r);
  }

  predicate SameDisplay(s: State, t: State) {
    s.ending == t.ending && s.activity == t.activity && s.sawActivity == t.sawActivity && s.model == t.model && s.lastSignal == t.lastSignal
  }

  // ---------------------------------------------------------------- the machine that does it in place

  class Interpreter {
    var active: set<TurnId>
    var starts: map<TurnId, int>
    var split: set<TurnId>
    var pending: set<CallKey>
    var finished: seq<Period>
    var lastSignal: Option<int>
    var ending: Option<Ending>
    var activity: Option<Activity>
    var sawActivity: bool
    var model: Option<string>

    function Value(): State
      reads this
    {
      State(active, starts, split, pending, finished, lastSignal, ending, activity, sawActivity, model)
    }

    constructor (s: State)
      ensures Value() == s
    {
      active, starts, split, pending, finished := s.active, s.starts, s.split, s.pending, s.finished;
      lastSignal, ending, activity, sawActivity, model := s.lastSignal, s.ending, s.activity, s.sawActivity, s.model;
    }

    /** Takes all open starts, and pushes a period for each that belongs to who. */
    method CloseStarts(who: set<TurnId>, end: Option<int>)
      modifies this`starts, this`finished
      ensures starts == map[] && finished == old(finished) + Closing(old(starts), who, end)
    {
      while starts != map[]
        invariant finished + Closing(starts, who, end) == old(finished) + Closing(old(starts), who, end)
        decreases starts.Keys
      {
        var turn := Least(starts.Keys);
        assert turn in starts.Keys && turn !in (starts - {turn}).Keys;
        if turn in who {
          if end.Some? && end.value >= starts[turn] {
            finished := finished + [Period(starts[turn], end.value, false)];
          }
        }
        starts := starts - {turn};
      }
    }

    method Start(turn: TurnId, startedAt: Option<int>, at: Option<int>)
      modifies this
      ensures Value() == Started(old(Value()), turn, startedAt, at)
    {
      if turn !in active {
        CloseStarts(active, lastSignal);
        active := {};
      }
      var started := Or(SecondsToMs(startedAt), at);
      if started.Some? {
        starts := starts[turn := started.value];
      }
      active := active + {turn};
    }

    method Finish(turn: TurnId, startedAt: Option<int>, completedAt: Option<int>, duration: Option<int>, at: Option<int>)
      modifies this
      ensures Value() == Finished(old(Value()), turn, startedAt, completedAt, duration, at)
    {
      active := active - {turn};
      var wasSplit := turn in split;
      split := split - {turn};
      var started := None;
      if turn in starts {
        started := Some(starts[turn]);
      } else if !wasSplit {
        started := SecondsToMs(startedAt);
      }
      var ended := SecondsToMs(completedAt);
      if ended.None? { ended := at; }
      if ended.None? && started.Some? && duration.Some? { ended := Some(Saturate(started.value + duration.value)); }
      if started.Some? && ended.Some? && ended.value >= started.value {
        finished := finished + [Period(started.value, ended.value, false)];
      }
      starts := starts - {turn};
    }

    method Abort(turn: Option<TurnId>, at: Option<int>)
      modifies this
      ensures Value() == Aborted(old(Value()), turn, at)
    {
      if turn.Some? {
        active := active - {turn.value};
        if turn.value in starts && at.Some? && at.value >= starts[turn.value] {
          finished := finished + [Period(starts[turn.value], at.value, false)];
        }
        starts := starts - {turn.value};
      } else {
        active := {};
        starts := map[];
      }
    }

    method Interpret(r: Record)
      modifies this
      ensures Value() == Dispatch(old(Value()), r)
    {
      match r.event {
        case TurnContext(m) =>
          if m.Some? { model := m; }
        case TaskStarted(turn, startedAt) =>
          if turn.Some? { Start(turn.value, startedAt, r.timestamp); }
          ending, activity, sawActivity, pending := None, Some(Thinking), true, {};
        case TaskComplete(turn, startedAt, completedAt, duration) =>
          if turn.Some? { Finish(turn.value, startedAt, completedAt, duration, r.timestamp); }
          ending, activity, pending := Some(Completed), None, {};
        case TurnAborted(turn) =>
          Abort(turn, r.timestamp);
          ending, activity, pending := Some(Interrupted), None, {};
        case SideActivity(a) =>
          activity, sawActivity := Some(a), true;
        case Reasoning =>
          activity, sawActivity := Some(Thinking), true;
        case ToolCall(call, name, asks, a) =>
          if asks {
            pending := pending + {InputKey(call, name)};
            activity := None;
          } else {
            activity := Some(a);
          }
          sawActivity := true;
        case ToolOutput(call) =>
          if call.Some? { pending := pending - {call.value}; }
        case InputRequest(call, fallback) =>
          pending := pending + {InputKey(call, Some(fallback))};
          activity, sawActivity := None, true;
        case InputResponse(call) =>
          if call.Some? { pending := pending - {call.value}; } else { pending := {}; }
        case Other(_) =>
      }
    }

    /** Opens a period for every active turn that has none. */
    method Resume(at: int)
      modifies this`starts
      ensures starts == Resumed(active, old(starts), at)
    {
      ghost var before := starts;
      var left := active;
      while left != {}
        invariant left <= active && starts == Resumed(active - left, before, at)
        decreases |left|
      {
        var turn :| turn in left;
        ghost var done := active - left;
        left := left - {turn};
        assert active - left == done + {turn};
        OneMoreResumed(done, before, at, turn);
        if turn !in starts {
          starts := starts[turn := at];
        }
      }
      assert active - left == active;
    }

    method CrossBoundary(wasWaiting: bool, at: Option<int>)
      modifies this
      ensures Value() == Boundary(wasWaiting, old(Value()), at)
    {
      hide Closing;
      var waiting := pending != {};
      if !wasWaiting && waiting {
        if at.Some? {
          split := split + starts.Keys;
          CloseStarts(starts.Keys, at);
        }
      } else if wasWaiting && !waiting {
        if at.Some? {
          Resume(at.value);
        }
      }
    }

    method Observe(r: Record)
      modifies this
      ensures Value() == Step(old(Value()), r)
      ensures forall key :: key in pending <==> Asks(r.event, key) || (key in old(pending) && !Answers(r.event, key))
      ensures (forall a, b :: a in old(active) && b in old(active) ==> a == b) ==>
                forall turn :: turn in active <==> StartsTurn(r.event, turn) || (turn in old(active) && !EndsTurn(r.event, turn))
      ensures forall x :: ending == Some(x) <==> EndsAs(r.event, x) || (old(ending) == Some(x) && !StartsOrEnds(r.event))
      ensures forall a :: activity == Some(a) <==> Shows(r.event, a) || (old(activity) == Some(a) && !DecidesActivity(r.event))
      ensures sawActivity <==> old(sawActivity) || IsActivity(r.event)
      ensures model == Or(ModelNamed(r.event), old(model)) && lastSignal == Or(SignalTime(r), old(lastSignal))
    {
      hide Asks, Answers, StartsTurn, EndsTurn, EndsAs, Shows, StartsOrEnds, DecidesActivity, IsActivity, ModelNamed, SignalTime;
      hide Dispatch, Boundary;
      RecordDecides(Value(), r);
      var wasWaiting := pending != {};
      Interpret(r);
      CrossBoundary(wasWaiting, r.timestamp);
      if Signals(r.event) {
        lastSignal := Or(r.timestamp, lastSignal);
      }
      var excess := if |finished| > MAX_WORK_PERIODS then |finished| - MAX_WORK_PERIODS else 0;
      finished := finished[excess..];
    }
  }

  // ---------------------------------------------------------------- what holds after any log whatsoever

  ghost predicate WellKept(s: State) {
    && (forall a, b :: a in s.active && b in s.active ==> a == b)
    && s.starts.Keys <= s.active
    && (forall i :: 0 <= i < |s.finished| ==> s.finished[i].start <= s.finished[i].end && !s.finished[i].ongoing)
    && |s.finished| <= MAX_WORK_PERIODS
  }

  ghost predicate AllSpells(ps: seq<Period>) {
    forall i :: 0 <= i < |ps| ==> ps[i].start <= ps[i].end && !ps[i].ongoing
  }

  lemma {:induction false} ClosingMakesSpells(starts: map<TurnId, int>, who: set<TurnId>, end: Option<int>)
    ensures AllSpells(Closing(starts, who, end))
    decreases starts.Keys
  {
    if starts != map[] {
      var k := Least(starts.Keys);
      assert k in starts.Keys && k !in (starts - {k}).Keys;
      ClosingMakesSpells(starts - {k}, who, end);
    }
  }

  lemma DispatchKeepsTurns(s: State, r: Record)
    requires WellKept(s)
    ensures var t := Dispatch(s, r);
            && (forall a, b :: a in t.active && b in t.active ==> a == b) && t.starts.Keys <= t.active && AllSpells(t.finished)
  {
    hide Closing, Spell, SecondsToMs, Saturate, AllSpells, Or;
    ClosingMakesSpells(s.starts, s.active, s.lastSignal);
    SpellsAreSpells();
    assert AllSpells(s.finished) by { FinishedAreSpells(s); }
  }

  lemma FinishedAreSpells(s: State)
    requires WellKept(s)
    ensures AllSpells(s.finished)
  {
  }

  lemma SpellsAreSpells()
    ensures forall start, end :: AllSpells(Spell(start, end))
    ensures AllSpells([]) && forall a, b :: AllSpells(a) && AllSpells(b) ==> AllSpells(a + b)
  {
  }

  /** At most one turn is active, open starts belong to it, and no period ends before it starts: after any record at all. */
  lemma StepKeepsWell(s: State, r: Record)
    requires WellKept(s)
    ensures WellKept(Step(s, r))
  {
    hide Dispatch, Closing;
    DispatchKeepsTurns(s, r);
    var t := Dispatch(s, r);
    ClosingMakesSpells(t.starts, t.starts.Keys, r.timestamp);
  }

  lemma {:induction false} EveryLogIsWellKept(s: State, records: seq<Record>)
    requires WellKept(s)
    ensures WellKept(Fold(s, records))
    decreases |records|
  {
    if records != [] {
      StepKeepsWell(s, records[0]);
      hide WellKept, Step;
      EveryLogIsWellKept(Step(s, records[0]), records[1..]);
    }
  }

  // ---------------------------------------------------------------- the periods that are reported

  predicate StartsNoLater(a: Period, b: Period) {
    a.start <= b.start
  }

  function Ongoing(starts: map<TurnId, int>, active: set<TurnId>, lastChange: int): seq<Period>
    decreases starts.Keys
  {
    if starts == map[] then []
    else
      var k := Least(starts.Keys);
      assert k in starts.Keys && k !in (starts - {k}).Keys;
      (if k in active then [Period(starts[k], if lastChange >= starts[k] then lastChange else starts[k], true)] else [])
      + Ongoing(starts - {k}, active, lastChange)
  }

  function WorkPeriods(s: State, lastChange: int): seq<Period> {
    Last(Sort(StartsNoLater, s.finished + Ongoing(s.starts, s.active, lastChange)), MAX_WORK_PERIODS)
  }

  lemma AtMostOneOngoing(starts: map<TurnId, int>, active: set<TurnId>, lastChange: int)
    requires starts.Keys <= active && forall a, b :: a in active && b in active ==> a == b
    ensures |Ongoing(starts, active, lastChange)| <= 1
    ensures forall i :: 0 <= i < |Ongoing(starts, active, lastChange)| ==>
              var p := Ongoing(starts, active, lastChange)[i]; p.start <= p.end && p.ongoing
  {
    if starts != map[] {
      var k := Least(starts.Keys);
      assert (starts - {k}).Keys == {};
      assert starts - {k} == map[];
    }
  }

  lemma Twice(s: seq<Period>, i: nat, j: nat)
    requires i < j < |s| && s[i] == s[j]
    ensures multiset(s)[s[i]] >= 2
  {
    assert s == s[..i] + [s[i]] + s[i + 1..j] + [s[j]] + s[j + 1..];
  }

  /** Whatever the log says, the report is in order, bounded, and has at most one period that still goes on. */
  lemma ReportIsOrdered(s: State, lastChange: int)
    requires WellKept(s)
    ensures var ps := WorkPeriods(s, lastChange);
            && |ps| <= MAX_WORK_PERIODS && SortedBy(StartsNoLater, ps)
            && (forall i :: 0 <= i < |ps| ==> ps[i].start <= ps[i].end)
            && (forall i, j :: 0 <= i < j < |ps| ==> !(ps[i].ongoing && ps[j].ongoing))
  {
    hide Ongoing, Sort, Last, SortedBy, StartsNoLater;
    AtMostOneOngoing(s.starts, s.active, lastChange);
    var going := Ongoing(s.starts, s.active, lastChange);
    var sorted := Sort(StartsNoLater, s.finished + going);
    assert TotalPreorder(StartsNoLater) by { StartsAreOrdered(); }
    SortSorts(StartsNoLater, s.finished + going);
    SortedShape(s.finished, going, sorted);
    LastKeepsShape(sorted, MAX_WORK_PERIODS);
  }

  lemma StartsAreOrdered()
    ensures TotalPreorder(StartsNoLater)
  {
  }

  lemma LastKeepsShape(sorted: seq<Period>, n: nat)
    requires SortedBy(StartsNoLater, sorted)
    requires forall i :: 0 <= i < |sorted| ==> sorted[i].start <= sorted[i].end
    requires forall i, j :: 0 <= i < j < |sorted| ==> !(sorted[i].ongoing && sorted[j].ongoing)
    ensures var ps := Last(sorted, n);
            && |ps| <= n && SortedBy(StartsNoLater, ps)
            && (forall i :: 0 <= i < |ps| ==> ps[i].start <= ps[i].end)
            && (forall i, j :: 0 <= i < j < |ps| ==> !(ps[i].ongoing && ps[j].ongoing))
  {
    hide StartsNoLater;
  }

  lemma SortedShape(finished: seq<Period>, going: seq<Period>, sorted: seq<Period>)
    requires AllSpells(finished) && |going| <= 1 && multiset(sorted) == multiset(finished + going)
    requires forall i :: 0 <= i < |going| ==> going[i].start <= going[i].end && going[i].ongoing
    ensures forall i :: 0 <= i < |sorted| ==> sorted[i].start <= sorted[i].end
    ensures forall i, j :: 0 <= i < j < |sorted| ==> !(sorted[i].ongoing && sorted[j].ongoing)
  {
    forall i | 0 <= i < |sorted| ensures sorted[i].start <= sorted[i].end && (sorted[i].ongoing ==> going != [] && sorted[i] == going[0]) {
      assert sorted[i] in multiset(finished + going);
    }
    forall i, j | 0 <= i < j < |sorted| ensures !(sorted[i].ongoing && sorted[j].ongoing) {
      if sorted[i].ongoing && sorted[j].ongoing {
        Twice(sorted, i, j);
        OneOngoing(finished, going);
        assert false;
      }
    }
  }

  lemma OneOngoing(finished: seq<Period>, going: seq<Period>)
    requires AllSpells(finished) && |going| == 1 && going[0].ongoing
    ensures multiset(finished + going)[going[0]] == 1
  {
    assert going == [going[0]];
    assert going[0] !in finished;
  }
}
