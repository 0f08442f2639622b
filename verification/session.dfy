/**
 The client sessions of server_impl in src/backend/server.cpp: every accepted socket is served by a coroutine that
 reads a request, has the engine comply, writes the reply and is spawned again.
 */
module Sessions {

  /** Why the io context was stopped, if it was. */
  datatype Stop = Running | ByAcceptor | ByCleanup

  /** m_score, the sessions whose coroutines wait for a request or for a write, and how many have been accepted. */
  datatype State = State(score: int, reading: multiset<nat>, writing: multiset<nat>, accepted: nat, stop: Stop)

  const START := State(0, multiset{}, multiset{}, 0, Running)

  datatype Step =
    | Accept
    | AcceptFails
    | Read(id: nat)                          // a request arrives: the engine complies, the reply is written
    | ReadFails(id: nat, autostart: bool)    // `autostart`: webpier::verify_autostart holds
    | Written(id: nat)
    | WriteFails(id: nat, autostart: bool)

  function Plus(m: multiset<nat>, x: nat): multiset<nat> { m + multiset{x} }

  function Minus(m: multiset<nat>, x: nat): multiset<nat> { m - multiset{x} }

  predicate Enabled(s: State, step: Step) {
    && s.stop.Running?
    && match step
       case Accept => true
       case AcceptFails => true
       case Read(id) => id in s.reading
       case ReadFails(id, _) => id in s.reading
       case Written(id) => id in s.writing
       case WriteFails(id, _) => id in s.writing
  }

  /** cleanup(): a session has ended; with the last one the server stops unless it is to run for ever. */
  function Cleanup(s: State, autostart: bool): State {
    var t := s.(score := s.score - 1);
    if t.score == 0 && !autostart then t.(stop := ByCleanup) else t
  }

  function Next(s: State, step: Step): State {
    if !Enabled(s, step) then s
    else
      match step
      case Accept => s.(score := s.score + 1, accepted := s.accepted + 1, reading := Plus(s.reading, s.accepted))
      case AcceptFails => s.(stop := ByAcceptor)
      case Read(id) => s.(reading := Minus(s.reading, id), writing := Plus(s.writing, id))
      case ReadFails(id, autostart) => Cleanup(s.(reading := Minus(s.reading, id)), autostart)
      case Written(id) => s.(writing := Minus(s.writing, id), reading := Plus(s.reading, id))
      case WriteFails(id, autostart) => Cleanup(s.(writing := Minus(s.writing, id)), autostart)
  }

  function Run(s: State, steps: seq<Step>): State
    decreases |steps|
  {
    if steps == [] then s else Run(Next(s, steps[0]), steps[1..])
  }

  /** How many coroutines a session has outstanding. */
  function Outstanding(s: State, id: nat): nat {
    s.reading[id] + s.writing[id]
  }

  /** The sessions that have been accepted and not cleaned up. */
  function Open(s: State): set<nat> {
    set id | 0 <= id < s.accepted && 0 < Outstanding(s, id)
  }

  ghost predicate Orderly(s: State) {
    && s.score == |s.reading| + |s.writing|
    && (forall id: nat :: Outstanding(s, id) <= 1)
    && (forall id: nat :: s.accepted <= id ==> Outstanding(s, id) == 0)
    && (s.stop.ByCleanup? ==> 0 < s.accepted && s.score == 0)
  }

  lemma OneMore(m: multiset<nat>, x: nat, y: nat)
    ensures Plus(m, x)[y] == m[y] + (if x == y then 1 else 0)
    ensures |Plus(m, x)| == |m| + 1
  {
  }

  lemma OneLess(m: multiset<nat>, x: nat, y: nat)
    requires x in m
    ensures Minus(m, x)[y] == m[y] - (if x == y then 1 else 0)
    ensures |Minus(m, x)| == |m| - 1
  {
  }

  /** The effect of a step on the number of coroutines, of one session and in all. */
  lemma TasksStep(s: State, step: Step, id: nat)
    requires Enabled(s, step)
    ensures var t := Next(s, step);
      var more := match step case Accept => 1 case ReadFails(_, _) => -1 case WriteFails(_, _) => -1 case _ => 0;
      var own := if step.AcceptFails? then false else if step.Accept? then id == s.accepted else id == step.id;
      && |t.reading| + |t.writing| == |s.reading| + |s.writing| + more
      && Outstanding(t, id) == Outstanding(s, id) + (if own then more else 0)
  {
    hide Plus, Minus;
    match step
    case Accept => OneMore(s.reading, s.accepted, id);
    case AcceptFails =>
    case Read(i) => OneLess(s.reading, i, id); OneMore(s.writing, i, id);
    case ReadFails(i, _) => OneLess(s.reading, i, id);
    case Written(i) => OneLess(s.writing, i, id); OneMore(s.reading, i, id);
    case WriteFails(i, _) => OneLess(s.writing, i, id);
  }

  lemma OrderlyStep(s: State, step: Step)
    requires Orderly(s)
    ensures Orderly(Next(s, step))
  {
    hide Plus, Minus;
    var t := Next(s, step);
    if Enabled(s, step) {
      TasksStep(s, step, 0);
      if !step.Accept? && !step.AcceptFails? { assert Outstanding(s, step.id) == 1; }
      forall id: nat ensures Outstanding(t, id) <= 1 && (t.accepted <= id ==> Outstanding(t, id) == 0) {
        hide Outstanding;
        TasksStep(s, step, id);
      }
    }
  }

  lemma {:induction false} RunOrderly(s: State, steps: seq<Step>)
    requires Orderly(s)
    ensures Orderly(Run(s, steps))
    decreases |steps|
  {
    hide Orderly, Next;
    if steps != [] {
      OrderlyStep(s, steps[0]);
      RunOrderly(Next(s, steps[0]), steps[1..]);
    }
  }

  /** With one coroutine a session there are as many coroutines as open sessions. */
  lemma {:induction false} TasksCount(s: State, n: nat)
    requires forall id: nat :: Outstanding(s, id) <= 1
    requires forall id: nat :: n <= id ==> Outstanding(s, id) == 0
    ensures |set id: nat | 0 <= id < n && 0 < Outstanding(s, id)| == |s.reading| + |s.writing|
    decreases n
  {
    hide Plus, Minus;
    var ids := set id: nat | 0 <= id < n && 0 < Outstanding(s, id);
    if n == 0 {
      forall id: nat ensures id !in s.reading && id !in s.writing { assert Outstanding(s, id) == 0; }
      assert s.reading == multiset{} && s.writing == multiset{} && ids == {};
    } else {
      var last := n - 1;
      var rest :=
        if last in s.reading then s.(reading := Minus(s.reading, last))
        else if last in s.writing then s.(writing := Minus(s.writing, last))
        else s;
      forall id: nat ensures Outstanding(rest, id) == if id == last then 0 else Outstanding(s, id) {
        assert Outstanding(s, last) <= 1;
        LessOf(s, last, id);
      }
      LessOf(s, last, last);
      TasksCount(rest, last);
      assert ids == (set id: nat | 0 <= id < last && 0 < Outstanding(rest, id)) + if rest == s then {} else {last};
    }
  }

  lemma LessOf(s: State, last: nat, id: nat)
    ensures last in s.reading ==>
      && Minus(s.reading, last)[id] == s.reading[id] - (if id == last then 1 else 0)
      && |Minus(s.reading, last)| == |s.reading| - 1
    ensures last in s.writing ==>
      && Minus(s.writing, last)[id] == s.writing[id] - (if id == last then 1 else 0)
      && |Minus(s.writing, last)| == |s.writing| - 1
  {
    if last in s.reading { OneLess(s.reading, last, id); }
    if last in s.writing { OneLess(s.writing, last, id); }
  }

  /**
   In every run m_score is the number of open sessions, each with exactly one coroutine outstanding, and cleanup
   stops the server only when there has been a session and none is open any more.
   */
  lemma SessionsCounted(steps: seq<Step>)
    ensures var s := Run(START, steps);
      && s.score == |Open(s)|
      && (forall id :: id in Open(s) ==> Outstanding(s, id) == 1)
      && (s.stop.ByCleanup? ==> 0 < s.accepted && Open(s) == {})
  {
    var s := Run(START, steps);
    RunOrderly(START, steps);
    TasksCount(s, s.accepted);
    assert Open(s) == set id: nat | 0 <= id < s.accepted && 0 < Outstanding(s, id);
  }

  /** The session that a failing step ends. */
  predicate Ends(step: Step, id: nat) {
    (step.ReadFails? || step.WriteFails?) && step.id == id
  }

  /**
   Exactly when cleanup stops the server: a session ends, it was the only one, and the server is not to run for ever.
   In every other case the server goes on with the other sessions.
   */
  lemma EndsExactly(steps: seq<Step>, step: Step, autostart: bool)
    requires var s := Run(START, steps); Enabled(s, step) && (step.ReadFails? || step.WriteFails?)
    requires autostart == step.autostart
    ensures var s := Run(START, steps); var t := Next(s, step);
      && step.id in Open(s) && Open(t) == Open(s) - {step.id}
      && (t.stop.ByCleanup? <==> Open(s) == {step.id} && !autostart)
      && (t.stop.Running? <==> !t.stop.ByCleanup?)
  {
    hide Run, Plus, Minus;
    var s := Run(START, steps);
    var t := Next(s, step);
    RunOrderly(START, steps);
    SessionsCounted(steps);
    TasksStep(s, step, step.id);
    assert Outstanding(s, step.id) == 1;
    forall id ensures id in Open(t) <==> id in Open(s) && id != step.id {
      if id >= 0 { TasksStep(s, step, id); }
    }
    if |Open(s)| == 1 { OnlyOne(Open(s), step.id); }
  }

  lemma OnlyOne(ids: set<nat>, id: nat)
    requires |ids| == 1 && id in ids
    ensures ids == {id}
  {
    assert |ids - {id}| == 0;
  }

  /** Until it is stopped the server accepts sessions, and every request that arrives is answered and followed up. */
  lemma SessionGoesOn(steps: seq<Step>, id: nat)
    requires Run(START, steps).stop.Running?
    ensures var s := Run(START, steps); var t := Next(s, Accept);
      s.accepted !in Open(s) && Open(t) == Open(s) + {s.accepted} && s.accepted in t.reading
    ensures var s := Run(START, steps);
      id in s.reading ==> var t := Next(s, Read(id)); id in t.writing && Open(t) == Open(s) && Next(t, Written(id)) == s
  {
    hide Run, Plus, Minus;
    var s := Run(START, steps);
    RunOrderly(START, steps);
    assert Outstanding(s, s.accepted) == 0;
    forall x: nat ensures x in Open(Next(s, Accept)) <==> x in Open(s) + {s.accepted} { TasksStep(s, Accept, x); }
    OneMore(s.reading, s.accepted, s.accepted);
    if id in s.reading {
      forall x: nat ensures x in Open(Next(s, Read(id))) <==> x in Open(s) { TasksStep(s, Read(id), x); }
      OneMore(s.writing, id, id);
      BackAgain(s.reading, id);
      ThereAndBack(s.writing, id);
    }
  }

  lemma BackAgain(m: multiset<nat>, id: nat)
    requires id in m
    ensures Plus(Minus(m, id), id) == m
  {
  }

  lemma ThereAndBack(m: multiset<nat>, id: nat)
    ensures Minus(Plus(m, id), id) == m
  {
  }

  // ---------------------------------------------------------------------------------------------------------
  // The server as an object
  // ---------------------------------------------------------------------------------------------------------

  /** server_impl, with the coroutines that its io context has outstanding. */
  class Server {
    var score: int
    var reading: multiset<nat>
    var writing: multiset<nat>
    var accepted: nat
    var stop: Stop

    constructor ()
      ensures Value() == START
    {
      score, reading, writing, accepted, stop := 0, multiset{}, multiset{}, 0, Running;
    }

    function Value(): State
      reads this
    {
      State(score, reading, writing, accepted, stop)
    }

    /** The handler of async_accept. */
    method OnAccept(failed: bool)
      requires stop.Running?
      modifies this
      ensures Value() == Next(old(Value()), if failed then AcceptFails else Accept)
    {
      if failed {
        stop := ByAcceptor;
        return;
      }
      score := score + 1;
      Handle(accepted);
      accepted := accepted + 1;
    }

    /** handle(): a new coroutine that starts to read. */
    method Handle(id: nat)
      modifies this`reading
      ensures reading == old(reading) + multiset{id}
    {
      reading := reading + multiset{id};
    }

    /** The lambda `cleanup` of a coroutine, which ends with it. */
    method OnCleanup(autostart: bool)
      modifies this`score, this`stop
      ensures Value() == Cleanup(old(Value()), autostart)
    {
      score := score - 1;
      if score == 0 {
        if !autostart { stop := ByCleanup; }
      }
    }

    /** A coroutine resumes after async_read_until. */
    method OnRead(id: nat, failed: bool, autostart: bool)
      requires stop.Running? && id in reading
      modifies this
      ensures Value() == Next(old(Value()), if failed then ReadFails(id, autostart) else Read(id))
    {
      reading := reading - multiset{id};
      if failed {
        OnCleanup(autostart);
        return;
      }
      writing := writing + multiset{id};
    }

    /** A coroutine resumes after async_write. */
    method OnWritten(id: nat, failed: bool, autostart: bool)
      requires stop.Running? && id in writing
      modifies this
      ensures Value() == Next(old(Value()), if failed then WriteFails(id, autostart) else Written(id))
    {
      writing := writing - multiset{id};
      if failed {
        OnCleanup(autostart);
        return;
      }
      Handle(id);
    }
  }
}
