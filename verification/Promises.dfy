/** The promise shared by a caller and a callee, and its two callbacks. */
module Promises {
  import opened Wrappers

  type Callback = nat
  type Value = string

  /** The error of a call whose function was not found; the real text also names the function. */
  const NOT_FOUND: Value := "func not found"

  /** How a call ends: CallHandle::respond or CallHandle::reject. */
  datatype Outcome = Respond(value: Value) | Reject(message: Value)

  datatype Data = Data(
    reachEvent: Option<Callback>, finishEvent: Option<Callback>,
    reachEventDone: bool, finishEventDone: bool,
    reached: bool, found: bool, finished: bool, isError: bool,
    response: Value, rejection: Value)

  const FRESH := Data(None, None, false, false, false, false, false, false, "", "")

  // ------------------------------------------------------------------
  // What happens while the mutex is held.

  /** callReachEvent up to the unlock: the callback to run, if it is due. */
  function TakeReachEvent(d: Data): (Data, Option<Callback>) {
    if !d.reachEventDone && d.reached && d.reachEvent.Some?
    then (d.(reachEventDone := true, reachEvent := None), d.reachEvent)
    else (d, None)
  }

  function TakeFinishEvent(d: Data): (Data, Option<Callback>) {
    if !d.finishEventDone && d.finished && d.finishEvent.Some?
    then (d.(finishEventDone := true, finishEvent := None), d.finishEvent)
    else (d, None)
  }

  function Reached(d: Data, found: bool): Data {
    d.(reached := true, found := found)
  }

  function NotFound(d: Data): Data {
    d.(finished := true, isError := true, rejection := NOT_FOUND)
  }

  function Ended(d: Data, outcome: Outcome): Data {
    match outcome
    case Respond(value) => d.(finished := true, isError := false, response := value)
    case Reject(message) => d.(finished := true, isError := true, rejection := message)
  }

  function WithReachEvent(d: Data, callback: Callback): Data {
    if d.reachEventDone then d else d.(reachEvent := Some(callback))
  }

  function WithFinishEvent(d: Data, callback: Callback): Data {
    if d.finishEventDone then d else d.(finishEvent := Some(callback))
  }

  /** All of CallHandle::reach, when nobody interferes during its callbacks. */
  function WholeReach(d: Data, found: bool): Data {
    var r := TakeReachEvent(Reached(d, found)).0;
    if found then r else TakeFinishEvent(NotFound(r)).0
  }

  function WholeEnd(d: Data, outcome: Outcome): Data {
    TakeFinishEvent(Ended(d, outcome)).0
  }

  // ------------------------------------------------------------------
  // What that means for each field.

  /** An end stores its value or its error, and leaves the other one and the reach as they were; a finish
      callback that is due is used up. */
  lemma EndSays(d: Data, outcome: Outcome)
    ensures
      var e := WholeEnd(d, outcome);
      && e.finished && e.reached == d.reached && e.found == d.found
      && e.reachEvent == d.reachEvent && e.reachEventDone == d.reachEventDone
      && (match outcome
          case Respond(value) => !e.isError && e.response == value && e.rejection == d.rejection
          case Reject(message) => e.isError && e.rejection == message && e.response == d.response)
      && (if !d.finishEventDone && d.finishEvent.Some? then e.finishEventDone && e.finishEvent.None?
          else e.finishEventDone == d.finishEventDone && e.finishEvent == d.finishEvent)
  {
  }

  /** Being reached notes whether the function was found; if not, it also ends the promise. */
  lemma ReachSays(d: Data, found: bool)
    ensures
      var e := WholeReach(d, found);
      && e.reached && e.found == found && e.response == d.response
      && (if !d.reachEventDone && d.reachEvent.Some? then e.reachEventDone && e.reachEvent.None?
          else e.reachEventDone == d.reachEventDone && e.reachEvent == d.reachEvent)
      && (if found then
            && e.finished == d.finished && e.isError == d.isError && e.rejection == d.rejection
            && e.finishEvent == d.finishEvent && e.finishEventDone == d.finishEventDone
          else
            && e.finished && e.isError && e.rejection == NOT_FOUND
            && (if !d.finishEventDone && d.finishEvent.Some? then e.finishEventDone && e.finishEvent.None?
                else e.finishEventDone == d.finishEventDone && e.finishEvent == d.finishEvent))
  {
  }

  /** Of the callbacks asked for, the latest one counts, once: at once when the promise is reached already,
      otherwise it waits in place of the one before; after one has run, none does. */
  lemma AskReachSays(d: Data, callback: Callback)
    ensures
      var (e, event) := TakeReachEvent(WithReachEvent(d, callback));
      && SameResult(d, e) && e.finishEvent == d.finishEvent && e.finishEventDone == d.finishEventDone
      && (d.reachEventDone ==> e == d && event.None?)
      && (!d.reachEventDone && d.reached ==> event == Some(callback) && e.reachEventDone && e.reachEvent.None?)
      && (!d.reachEventDone && !d.reached ==> event.None? && !e.reachEventDone && e.reachEvent == Some(callback))
  {
  }

  lemma AskFinishSays(d: Data, callback: Callback)
    ensures
      var (e, event) := TakeFinishEvent(WithFinishEvent(d, callback));
      && SameResult(d, e) && e.reachEvent == d.reachEvent && e.reachEventDone == d.reachEventDone
      && (d.finishEventDone ==> e == d && event.None?)
      && (!d.finishEventDone && d.finished ==> event == Some(callback) && e.finishEventDone && e.finishEvent.None?)
      && (!d.finishEventDone && !d.finished ==> event.None? && !e.finishEventDone && e.finishEvent == Some(callback))
  {
  }

  /** The callback that is due at a reach or an end is the one that was waiting. */
  lemma DueSays(d: Data, found: bool, outcome: Outcome)
    ensures TakeReachEvent(Reached(d, found)).1 == if d.reachEventDone then None else d.reachEvent
    ensures TakeFinishEvent(NotFound(d)).1 == if d.finishEventDone then None else d.finishEvent
    ensures TakeFinishEvent(Ended(d, outcome)).1 == if d.finishEventDone then None else d.finishEvent
  {
  }

  predicate SameResult(d: Data, e: Data) {
    && d.reached == e.reached && d.found == e.found && d.finished == e.finished && d.isError == e.isError
    && d.response == e.response && d.rejection == e.rejection
  }

  // ------------------------------------------------------------------
  // The object. A callback that is due is appended to `ran`; what other threads do while it runs is
  // the business of the steps below.

  datatype Run = OnReach(callback: Callback) | OnFinish(callback: Callback)

  function RunsOf(reach: Option<Callback>, finish: Option<Callback>): seq<Run> {
    (if reach.Some? then [OnReach(reach.value)] else []) + (if finish.Some? then [OnFinish(finish.value)] else [])
  }

  lemma RunsSay(a: Callback, b: Callback)
    ensures RunsOf(None, None) == [] && RunsOf(Some(a), None) == [OnReach(a)]
    ensures RunsOf(None, Some(b)) == [OnFinish(b)] && RunsOf(Some(a), Some(b)) == [OnReach(a), OnFinish(b)]
  {
  }

  class PromiseData {
    var reachEvent: Option<Callback>
    var finishEvent: Option<Callback>
    var reachEventDone: bool
    var finishEventDone: bool
    var reached: bool
    var found: bool
    var finished: bool
    var isError: bool
    var response: Value
    var rejection: Value
    /** The callbacks run so far. */
    var ran: seq<Run>

    function State(): Data
      reads this
    {
      Data(
        reachEvent, finishEvent, reachEventDone, finishEventDone,
        reached, found, finished, isError, response, rejection)
    }

    constructor ()
      ensures State() == FRESH && ran == []
    {
      reachEvent, finishEvent := None, None;
      reachEventDone, finishEventDone, reached, found, finished, isError := false, false, false, false, false, false;
      response, rejection, ran := "", "", [];
    }

    method CallReachEvent()
      modifies this
      ensures
        var (d, event) := TakeReachEvent(old(State()));
        State() == d && ran == old(ran) + RunsOf(event, None)
    {
      if !reachEventDone && reached && reachEvent.Some? {
        reachEventDone := true;
        ran := ran + [OnReach(reachEvent.value)];
        reachEvent := None;
      }
    }

    method CallFinishEvent()
      modifies this
      ensures
        var (d, event) := TakeFinishEvent(old(State()));
        State() == d && ran == old(ran) + RunsOf(None, event)
    {
      if !finishEventDone && finished && finishEvent.Some? {
        finishEventDone := true;
        ran := ran + [OnFinish(finishEvent.value)];
        finishEvent := None;
      }
    }

    /** CallHandle::reach; `ok` is false when it throws. */
    method Reach(isFound: bool) returns (ok: bool)
      modifies this
      ensures ok == !old(reached)
      ensures !ok ==> State() == old(State()) && ran == old(ran)
      ensures ok ==>
                var (d, reach) := TakeReachEvent(Reached(old(State()), isFound));
                if isFound then State() == d && ran == old(ran) + RunsOf(reach, None)
                else
                  var (e, finish) := TakeFinishEvent(NotFound(d));
                  State() == e && ran == old(ran) + RunsOf(reach, finish)
    {
      if reached {
        return false;
      }
      reached := true;
      found := isFound;
      CallReachEvent();
      if !isFound {
        finished := true;
        isError := true;
        rejection := NOT_FOUND;
        CallFinishEvent();
      }
      return true;
    }

    /** CallHandle::respond and CallHandle::reject; `ok` is false when they throw. */
    method End(outcome: Outcome) returns (ok: bool)
      modifies this
      ensures ok == !old(finished)
      ensures !ok ==> State() == old(State()) && ran == old(ran)
      ensures ok ==>
                var (d, finish) := TakeFinishEvent(Ended(old(State()), outcome));
                State() == d && ran == old(ran) + RunsOf(None, finish)
      ensures ok ==>
                && finished && reached == old(reached) && found == old(found) && isError == outcome.Reject?
                && response == (if outcome.Respond? then outcome.value else old(response))
                && rejection == (if outcome.Reject? then outcome.message else old(rejection))
    {
      if finished {
        return false;
      }
      finished := true;
      match outcome {
        case Respond(value) =>
          isError := false;
          response := value;
        case Reject(message) =>
          isError := true;
          rejection := message;
      }
      CallFinishEvent();
      return true;
    }

    /** Promise::onReach. */
    method SetOnReach(callback: Callback)
      modifies this
      ensures
        var (d, event) := TakeReachEvent(WithReachEvent(old(State()), callback));
        State() == d && ran == old(ran) + RunsOf(event, None)
    {
      if !reachEventDone {
        reachEvent := Some(callback);
        CallReachEvent();
      }
    }

    /** Promise::onFinish. */
    method SetOnFinish(callback: Callback)
      modifies this
      ensures
        var (d, event) := TakeFinishEvent(WithFinishEvent(old(State()), callback));
        State() == d && ran == old(ran) + RunsOf(None, event)
    {
      if !finishEventDone {
        finishEvent := Some(callback);
        CallFinishEvent();
      }
    }
  }

  // ------------------------------------------------------------------
  // Any number of threads. A step runs from one point where the mutex is free to the next: the
  // start of an operation, the check in respond, or a callback.

  type Thread = nat

  datatype Pc =
    | Idle
      /** Inside the reach callback, the rest of `reach` still to come. */
    | InReach(found: bool)
      /** Found the promise respondable, not yet locked again. */
    | Checked(outcome: Outcome)
      /** Inside a callback after which nothing is left to do. */
    | InLastCallback

  /** `askedReach` and `askedFinish` are the callbacks anybody ever asked for. */
  datatype State = State(
    d: Data, ran: seq<Run>, pc: map<Thread, Pc>, askedReach: set<Callback>, askedFinish: set<Callback>)

  datatype Op =
    | Reach(found: bool)
    | Resume
    | Check(outcome: Outcome)
    | Commit
    | AskReach(callback: Callback)
    | AskFinish(callback: Callback)

  function PcOf(s: State, t: Thread): Pc {
    if t in s.pc then s.pc[t] else Idle
  }

  /** What remains of `reach` after its callback, or when there was none. */
  function AfterReach(s: State, t: Thread, found: bool): State {
    if found then s.(pc := s.pc[t := Idle])
    else
      var (d, event) := TakeFinishEvent(NotFound(s.d));
      s.(d := d, ran := s.ran + RunsOf(None, event), pc := s.pc[t := if event.Some? then InLastCallback else Idle])
  }

  function DoReach(s: State, t: Thread, found: bool): State {
    if s.d.reached then s
    else
      var (d, event) := TakeReachEvent(Reached(s.d, found));
      var r := s.(d := d, ran := s.ran + RunsOf(event, None));
      if event.Some? then r.(pc := s.pc[t := InReach(found)]) else AfterReach(r, t, found)
  }

  function DoCommit(s: State, t: Thread, outcome: Outcome): State {
    var (d, event) := TakeFinishEvent(Ended(s.d, outcome));
    s.(d := d, ran := s.ran + RunsOf(None, event), pc := s.pc[t := if event.Some? then InLastCallback else Idle])
  }

  function DoAskReach(s: State, t: Thread, callback: Callback): State {
    var (d, event) := TakeReachEvent(WithReachEvent(s.d, callback));
    s.(d := d, ran := s.ran + RunsOf(event, None), askedReach := s.askedReach + {callback},
       pc := s.pc[t := if event.Some? then InLastCallback else Idle])
  }

  function DoAskFinish(s: State, t: Thread, callback: Callback): State {
    var (d, event) := TakeFinishEvent(WithFinishEvent(s.d, callback));
    s.(d := d, ran := s.ran + RunsOf(None, event), askedFinish := s.askedFinish + {callback},
       pc := s.pc[t := if event.Some? then InLastCallback else Idle])
  }

  /** A step of thread `t`; a callback that calls back into the promise is a thread of its own. */
  function Step(s: State, t: Thread, op: Op): State {
    match PcOf(s, t)
    case Idle => (
      match op
      case Reach(found) => DoReach(s, t, found)
      case Check(outcome) => if s.d.finished then s else s.(pc := s.pc[t := Checked(outcome)])
      case AskReach(callback) => DoAskReach(s, t, callback)
      case AskFinish(callback) => DoAskFinish(s, t, callback)
      case _ => s)
    case InReach(found) => if op.Resume? then AfterReach(s, t, found) else s
    case Checked(outcome) => if op.Commit? then DoCommit(s, t, outcome) else s
    case InLastCallback => if op.Resume? then s.(pc := s.pc[t := Idle]) else s
  }

  const START := State(FRESH, [], map[], {}, {})

  function RunAll(schedule: seq<(Thread, Op)>): State {
    if schedule == [] then START
    else
      var last := schedule[|schedule| - 1];
      Step(RunAll(schedule[..|schedule| - 1]), last.0, last.1)
  }

  function Reaches(ran: seq<Run>): nat {
    if ran == [] then 0
    else Reaches(ran[..|ran| - 1]) + (if ran[|ran| - 1].OnReach? then 1 else 0)
  }

  function Finishes(ran: seq<Run>): nat {
    if ran == [] then 0
    else Finishes(ran[..|ran| - 1]) + (if ran[|ran| - 1].OnFinish? then 1 else 0)
  }

  ghost predicate Inv(s: State) {
    && Reaches(s.ran) == (if s.d.reachEventDone then 1 else 0)
    && Finishes(s.ran) == (if s.d.finishEventDone then 1 else 0)
    && (s.d.reachEventDone ==> s.d.reached) && (s.d.finishEventDone ==> s.d.finished)
    && (s.d.reached && s.d.reachEvent.Some? ==> s.d.reachEventDone)
    && (s.d.finished && s.d.finishEvent.Some? ==> s.d.finishEventDone)
    && (s.askedReach != {} ==> s.d.reachEvent.Some? || s.d.reachEventDone)
    && (s.askedFinish != {} ==> s.d.finishEvent.Some? || s.d.finishEventDone)
    && (s.d.reachEvent.Some? ==> s.d.reachEvent.value in s.askedReach)
    && (s.d.finishEvent.Some? ==> s.d.finishEvent.value in s.askedFinish)
    && (forall r :: r in s.ran ==> if r.OnReach? then r.callback in s.askedReach else r.callback in s.askedFinish)
  }

  lemma CountOfRuns(ran: seq<Run>, reach: Option<Callback>, finish: Option<Callback>)
    requires reach.None? || finish.None?
    ensures Reaches(ran + RunsOf(reach, finish)) == Reaches(ran) + if reach.Some? then 1 else 0
    ensures Finishes(ran + RunsOf(reach, finish)) == Finishes(ran) + if finish.Some? then 1 else 0
  {
    var runs := RunsOf(reach, finish);
    if runs == [] {
      assert ran + runs == ran;
    } else {
      assert (ran + runs)[..|ran|] == ran;
    }
  }

  lemma AfterReachKeepsInv(s: State, t: Thread, found: bool)
    requires Inv(s)
    ensures Inv(AfterReach(s, t, found))
  {
    CountOfRuns(s.ran, None, TakeFinishEvent(NotFound(s.d)).1);
  }

  lemma ReachKeepsInv(s: State, t: Thread, found: bool)
    requires Inv(s)
    ensures Inv(DoReach(s, t, found))
  {
    if !s.d.reached {
      var (d, event) := TakeReachEvent(Reached(s.d, found));
      CountOfRuns(s.ran, event, None);
      AfterReachKeepsInv(s.(d := d, ran := s.ran + RunsOf(event, None)), t, found);
    }
  }

  lemma CommitKeepsInv(s: State, t: Thread, outcome: Outcome)
    requires Inv(s)
    ensures Inv(DoCommit(s, t, outcome))
  {
    CountOfRuns(s.ran, None, TakeFinishEvent(Ended(s.d, outcome)).1);
  }

  lemma AskReachKeepsInv(s: State, t: Thread, callback: Callback)
    requires Inv(s)
    ensures Inv(DoAskReach(s, t, callback))
  {
    CountOfRuns(s.ran, TakeReachEvent(WithReachEvent(s.d, callback)).1, None);
  }

  lemma AskFinishKeepsInv(s: State, t: Thread, callback: Callback)
    requires Inv(s)
    ensures Inv(DoAskFinish(s, t, callback))
  {
    CountOfRuns(s.ran, None, TakeFinishEvent(WithFinishEvent(s.d, callback)).1);
  }

  lemma StepKeepsInv(s: State, t: Thread, op: Op)
    requires Inv(s)
    ensures Inv(Step(s, t, op))
  {
    match op
    case Reach(found) => ReachKeepsInv(s, t, found);
    case AskReach(callback) => AskReachKeepsInv(s, t, callback);
    case AskFinish(callback) => AskFinishKeepsInv(s, t, callback);
    case Check(outcome) =>
    case Resume =>
      if PcOf(s, t).InReach? {
        AfterReachKeepsInv(s, t, PcOf(s, t).found);
      }
    case Commit =>
      if PcOf(s, t).Checked? {
        CommitKeepsInv(s, t, PcOf(s, t).outcome);
      }
  }

  lemma {:induction false} RunKeepsInv(schedule: seq<(Thread, Op)>)
    ensures Inv(RunAll(schedule))
  {
    if schedule != [] {
      var init, last := schedule[..|schedule| - 1], schedule[|schedule| - 1];
      RunKeepsInv(init);
      StepKeepsInv(RunAll(init), last.0, last.1);
    }
  }

  /** Exactly-once callbacks, under every schedule of any number of threads, even ones that race in
      respond: each kind runs at most once, and only after its event; whenever the mutex is free a
      reached promise that was ever asked for a callback has run one of those, and so for finished. */
  lemma CallbacksRunOnce(schedule: seq<(Thread, Op)>)
    ensures
      var s := RunAll(schedule);
      && Reaches(s.ran) <= 1 && Finishes(s.ran) <= 1
      && (s.askedReach != {} ==> (Reaches(s.ran) == 1 <==> s.d.reached))
      && (s.askedFinish != {} ==> (Finishes(s.ran) == 1 <==> s.d.finished))
      && (forall r :: r in s.ran ==> if r.OnReach? then r.callback in s.askedReach else r.callback in s.askedFinish)
  {
    RunKeepsInv(schedule);
  }

  // ------------------------------------------------------------------
  // How a promise ends, over every schedule.

  /** The promise shows this end. */
  predicate Shows(d: Data, outcome: Outcome) {
    match outcome
    case Respond(value) => d.finished && !d.isError && d.response == value
    case Reject(message) => d.finished && d.isError && d.rejection == message
  }

  ghost predicate WasGiven(schedule: seq<(Thread, Op)>, outcome: Outcome) {
    exists t: Thread :: (t, Check(outcome)) in schedule
  }

  ghost predicate EndsAsGiven(s: State, schedule: seq<(Thread, Op)>) {
    && (forall t :: PcOf(s, t).Checked? ==> WasGiven(schedule, PcOf(s, t).outcome))
    && (s.d.finished ==>
          || (s.d.isError && s.d.rejection == NOT_FOUND)
          || (exists outcome :: WasGiven(schedule, outcome) && Shows(s.d, outcome)))
  }

  lemma MoreIsGiven(schedule: seq<(Thread, Op)>, t: Thread, op: Op)
    ensures forall outcome :: WasGiven(schedule, outcome) || op == Check(outcome) ==>
              WasGiven(schedule + [(t, op)], outcome)
  {
    forall outcome | WasGiven(schedule, outcome) || op == Check(outcome)
      ensures WasGiven(schedule + [(t, op)], outcome)
    {
      if u :| (u, Check(outcome)) in schedule {
        assert (u, Check(outcome)) in schedule + [(t, op)];
      } else {
        assert (t, Check(outcome)) in schedule + [(t, op)];
      }
    }
  }

  /** A step that ends the promise shows the outcome that was checked before, also when another thread got
      in between; any other step leaves what it shows, or finds the function missing. */
  lemma StepShows(s: State, t: Thread, op: Op)
    ensures
      var n := Step(s, t, op).d;
      if PcOf(s, t).Checked? && op.Commit? then
        && Shows(n, PcOf(s, t).outcome) && n.reached == s.d.reached && n.found == s.d.found
        && (if PcOf(s, t).outcome.Respond? then n.rejection == s.d.rejection else n.response == s.d.response)
      else SameEnd(n, s.d) || (n.finished && n.isError && n.rejection == NOT_FOUND && n.response == s.d.response)
  {
    match PcOf(s, t)
    case Idle => BeginningShows(s, t, op);
    case Checked(outcome) => CommitShows(s, t, outcome);
    case _ =>
  }

  lemma CommitShows(s: State, t: Thread, outcome: Outcome)
    ensures
      var n := DoCommit(s, t, outcome).d;
      && Shows(n, outcome) && n.reached == s.d.reached && n.found == s.d.found
      && (if outcome.Respond? then n.rejection == s.d.rejection else n.response == s.d.response)
  {
  }

  lemma BeginningShows(s: State, t: Thread, op: Op)
    requires PcOf(s, t).Idle?
    ensures
      var n := Step(s, t, op).d;
      SameEnd(n, s.d) || (n.finished && n.isError && n.rejection == NOT_FOUND && n.response == s.d.response)
  {
    match op
    case Reach(found) => ReachShows(s, t, found);
    case AskReach(callback) => AskReachSays(s.d, callback);
    case AskFinish(callback) => AskFinishSays(s.d, callback);
    case _ =>
  }

  lemma ReachShows(s: State, t: Thread, found: bool)
    ensures
      var n := DoReach(s, t, found).d;
      SameEnd(n, s.d) || (n.finished && n.isError && n.rejection == NOT_FOUND && n.response == s.d.response)
  {
  }

  lemma StepChecks(s: State, t: Thread, op: Op, u: Thread)
    requires PcOf(Step(s, t, op), u).Checked?
    ensures PcOf(Step(s, t, op), u) == PcOf(s, u) || op == Check(PcOf(Step(s, t, op), u).outcome)
  {
  }

  predicate SameEnd(d: Data, e: Data) {
    d.finished == e.finished && d.isError == e.isError && d.response == e.response && d.rejection == e.rejection
  }

  lemma StepEndsAsGiven(s: State, schedule: seq<(Thread, Op)>, t: Thread, op: Op)
    requires EndsAsGiven(s, schedule)
    ensures EndsAsGiven(Step(s, t, op), schedule + [(t, op)])
  {
    MoreIsGiven(schedule, t, op);
    StepShows(s, t, op);
    var n := Step(s, t, op);
    forall u | PcOf(n, u).Checked?
      ensures WasGiven(schedule + [(t, op)], PcOf(n, u).outcome)
    {
      StepChecks(s, t, op, u);
    }
    if PcOf(s, t).Checked? && op.Commit? {
      assert WasGiven(schedule, PcOf(s, t).outcome) && Shows(n.d, PcOf(s, t).outcome);
    } else if SameEnd(n.d, s.d) && s.d.finished && !(s.d.isError && s.d.rejection == NOT_FOUND) {
      var outcome :| WasGiven(schedule, outcome) && Shows(s.d, outcome);
      assert Shows(n.d, outcome);
    }
  }

  /** Over every schedule, a promise that has ended shows an outcome that some thread responded or rejected
      with, or that its function was not found. */
  lemma {:induction false} EndIsGiven(schedule: seq<(Thread, Op)>)
    ensures EndsAsGiven(RunAll(schedule), schedule)
  {
    if schedule != [] {
      var init, last := schedule[..|schedule| - 1], schedule[|schedule| - 1];
      EndIsGiven(init);
      StepEndsAsGiven(RunAll(init), init, last.0, last.1);
      assert schedule == init + [(last.0, last.1)];
    }
  }

  /** A reach by an idle thread counts exactly when it is the first, and nothing else says whether the
      function was found. */
  lemma FirstReachCounts(s: State, t: Thread, op: Op)
    ensures
      var n := Step(s, t, op).d;
      if !s.d.reached && PcOf(s, t).Idle? && op.Reach? then n.reached && n.found == op.found
      else n.reached == s.d.reached && n.found == s.d.found
  {
  }

  // ------------------------------------------------------------------
  // What a thread does takes effect.

  /** An operation that a thread begins. A respond or reject goes on exactly when the promise has not ended
      yet; a callback that is asked for counts as asked for. */
  lemma BeginningSays(s: State, t: Thread, op: Op)
    requires PcOf(s, t).Idle?
    ensures
      var n := Step(s, t, op);
      match op
      case Check(outcome) => if s.d.finished then n == s else PcOf(n, t) == Checked(outcome) && n.d == s.d
      case AskReach(callback) => n.askedReach == s.askedReach + {callback} && n.askedFinish == s.askedFinish
      case AskFinish(callback) => n.askedFinish == s.askedFinish + {callback} && n.askedReach == s.askedReach
      case Reach(found) =>
        && n.d.reached && (s.d.reached ==> n == s)
        && (!s.d.reached && !found ==> PcOf(n, t) == InReach(false) || n.d.finished)
      case _ => n == s
  {
  }

  /** A promise that was reached but not found ends, at the latest when its reach callback is done. */
  ghost predicate UnfoundEnds(s: State) {
    && (s.d.reached && !s.d.found ==> s.d.finished || exists t :: PcOf(s, t) == InReach(false))
    && (forall t :: PcOf(s, t).InReach? ==> s.d.reached && PcOf(s, t).found == s.d.found)
  }

  lemma UnfoundStays(s: State, t: Thread, op: Op)
    requires UnfoundEnds(s)
    ensures UnfoundEnds(Step(s, t, op))
  {
    var n := Step(s, t, op);
    FirstReachCounts(s, t, op);
    forall u | PcOf(n, u).InReach?
      ensures n.d.reached && PcOf(n, u).found == n.d.found
    {
      if u == t {
        StepReaches(s, t, op);
      } else {
        assert PcOf(n, u) == PcOf(s, u);
      }
    }
    if n.d.reached && !n.d.found && !n.d.finished {
      StepLeavesReaching(s, t, op);
    }
  }

  /** Only a thread that begins a reach gets into its callback. */
  lemma StepReaches(s: State, t: Thread, op: Op)
    ensures
      var n := Step(s, t, op);
      PcOf(n, t).InReach? ==>
        n == s || PcOf(n, t) == PcOf(s, t)
        || (PcOf(s, t).Idle? && op.Reach? && !s.d.reached && PcOf(n, t).found == op.found)
  {
  }

  lemma StepLeavesReaching(s: State, t: Thread, op: Op)
    requires UnfoundEnds(s)
    ensures
      var n := Step(s, t, op);
      n.d.reached && !n.d.found && !n.d.finished ==> exists u :: PcOf(n, u) == InReach(false)
  {
    var n := Step(s, t, op);
    if n.d.reached && !n.d.found && !n.d.finished {
      if s.d.reached {
        assert !s.d.found && !s.d.finished;
        var u :| PcOf(s, u) == InReach(false);
        assert PcOf(n, u) == InReach(false);
      } else {
        assert PcOf(n, t) == InReach(false);
      }
    }
  }

  /** Over every schedule: whenever no thread is in a reach callback, a promise that was reached and not
      found has ended. */
  lemma {:induction false} UnfoundHasEnded(schedule: seq<(Thread, Op)>)
    ensures UnfoundEnds(RunAll(schedule))
  {
    if schedule != [] {
      var init, last := schedule[..|schedule| - 1], schedule[|schedule| - 1];
      UnfoundHasEnded(init);
      UnfoundStays(RunAll(init), last.0, last.1);
    }
  }

  /** Nothing is under way that could still end the promise. */
  ghost predicate AtRest(s: State) {
    s.d.finished && s.d.reached && forall t :: PcOf(s, t).Idle? || PcOf(s, t).InLastCallback?
  }

  function RunOn(s: State, schedule: seq<(Thread, Op)>): State
    decreases |schedule|
  {
    if schedule == [] then s else RunOn(Step(s, schedule[0].0, schedule[0].1), schedule[1..])
  }

  lemma StepAtRest(s: State, t: Thread, op: Op)
    requires AtRest(s)
    ensures AtRest(Step(s, t, op)) && SameResult(Step(s, t, op).d, s.d)
  {
    var n := Step(s, t, op);
    forall u
      ensures PcOf(n, u).Idle? || PcOf(n, u).InLastCallback?
    {
      assert PcOf(s, u).Idle? || PcOf(s, u).InLastCallback?;
      assert PcOf(s, t).Idle? || PcOf(s, t).InLastCallback?;
    }
  }

  /** A promise that was reached and has ended, with nothing under way, is final: whatever any threads do
      from then on, it shows the same. */
  lemma {:induction false} FinalAtRest(s: State, schedule: seq<(Thread, Op)>)
    requires AtRest(s)
    ensures SameResult(RunOn(s, schedule).d, s.d)
    decreases |schedule|
  {
    if schedule != [] {
      StepAtRest(s, schedule[0].0, schedule[0].1);
      FinalAtRest(Step(s, schedule[0].0, schedule[0].1), schedule[1..]);
    }
  }
}
