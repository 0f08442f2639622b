/**
 Connectors by their history: which carriers run, what has become of every contract and of every failure. A run is
 looked at step by step, without the states' own accounts of it.
 */
module Histories {
  import opened Settings
  import opened Connectors

  /** The step launches carrier `pid`: a posted contract is handled. */
  predicate Launches(c: Conn, s: Step, pid: nat) {
    s.RunConnect? && s.pid == pid && Enabled(c, s)
  }

  /** The step is the exit of carrier `pid`. */
  predicate Exits(c: Conn, s: Step, pid: nat) {
    s.Exit? && s.pid == pid && Enabled(c, s)
  }

  /** Carrier `pid` was launched by step `i` and has not exited since. */
  predicate LaunchedBy(c: Conn, steps: seq<Step>, i: nat, pid: nat) {
    && i < |steps| && Launches(Run(c, steps[..i]), steps[i], pid)
    && forall j :: i < j < |steps| ==> !Exits(Run(c, steps[..j]), steps[j], pid)
  }

  lemma TunnelsStep(c: Conn, s: Step, pid: nat)
    ensures pid in Next(c, s).tunnels <==> Launches(c, s, pid) || (pid in c.tunnels && !Exits(c, s, pid))
  {
    hide LateOf;
  }

  /** The carriers of a connector, export or import, are those that were launched and have not exited. */
  lemma {:induction false} TunnelsAreLaunched(birth: nat, steps: seq<Step>, pid: nat)
    ensures pid in Run(Fresh(birth), steps).tunnels <==> exists i: nat :: LaunchedBy(Fresh(birth), steps, i, pid)
    decreases |steps|
  {
    hide Next, Enabled, Run, Launches, Exits, Fresh;
    var c := Fresh(birth);
    if steps == [] {
      RunNone(c);
      assert c.tunnels == {} by { NoTunnels(birth); }
    } else {
      var n := |steps| - 1;
      var front := steps[..n];
      var e := Run(c, front);
      TunnelsAreLaunched(birth, front, pid);
      RunLast(c, steps);
      TunnelsStep(e, steps[n], pid);
      forall i | 0 <= i <= n ensures front[..i] == steps[..i] { }
      if i: nat :| LaunchedBy(c, front, i, pid) {
        if !Exits(e, steps[n], pid) { assert LaunchedBy(c, steps, i, pid); }
      }
      if Launches(e, steps[n], pid) { assert LaunchedBy(c, steps, n, pid); }
      if i: nat :| LaunchedBy(c, steps, i, pid) {
        if i < n { assert LaunchedBy(c, front, i, pid); }
      }
    }
  }

  lemma NoTunnels(birth: nat)
    ensures Fresh(birth).tunnels == {}
  {
  }

  // ---------------------------------------------------------------------------------------------------------
  // Contracts and failures
  // ---------------------------------------------------------------------------------------------------------

  /** What negotiations post in a step: a callback, or what the thread has still posted when it is joined. */
  function PostedIn(c: Conn, s: Step): seq<Post> {
    if !Enabled(c, s) then []
    else
      match s
      case Callback(post, _) => [post]
      case ThrowPost(error) => [Fallback(error)]
      case Restart(_, _, late) => LateOf(c, late)
      case RunTimer(late) => if c.service.local && Active(c) then [] else LateOf(c, late)
      case Exit(_, late) => if c.service.local then [] else LateOf(c, late)
      case _ => []
  }

  /** What negotiations have posted in a run, in order. */
  function Posted(c: Conn, steps: seq<Step>): seq<Post>
    decreases |steps|
  {
    if steps == [] then [] else PostedIn(c, steps[0]) + Posted(Next(c, steps[0]), steps[1..])
  }

  /** How many carriers have been launched in a run. */
  function Launched(c: Conn, steps: seq<Step>): nat
    decreases |steps|
  {
    if steps == [] then 0
    else (if steps[0].RunConnect? && Enabled(c, steps[0]) then 1 else 0) + Launched(Next(c, steps[0]), steps[1..])
  }

  function ReportedIn(c: Conn, s: Step): seq<string> {
    if Fails(c, s) then [c.fallbacks[0]] else []
  }

  /** The failures that have been reported in a run, in order. */
  function Reported(c: Conn, steps: seq<Step>): seq<string>
    decreases |steps|
  {
    if steps == [] then []
    else ReportedIn(c, steps[0]) + Reported(Next(c, steps[0]), steps[1..])
  }

  lemma PostedStep(c: Conn, s: Step)
    ensures var d := Next(c, s); var launched := if s.RunConnect? && Enabled(c, s) then 1 else 0;
      d.connects + launched == c.connects + ConnectsIn(PostedIn(c, s))
    ensures var d := Next(c, s);
      ReportedIn(c, s) + d.fallbacks == c.fallbacks + FallbacksIn(PostedIn(c, s))
  {
    hide LateOf;
    if Enabled(c, s) {
      match s
      case Restart(_, _, late) => JoinedTwice(c, late);
      case RunTimer(late) => JoinedTwice(c, late);
      case Exit(_, late) => JoinedTwice(c, late);
      case _ =>
    }
  }

  /** A thread that has been joined posts nothing when it is joined again. */
  lemma JoinedTwice(c: Conn, late: Choice)
    ensures forall d: Conn :: d.phase.Idle? ==> LateOf(d, late) == []
    ensures forall d: Conn :: Enqueue(d, []) == d
    ensures forall d: Conn ::
      d.phase == c.phase && d.service.local == c.service.local ==> LateOf(d, late) == LateOf(c, late)
  {
    forall d: Conn ensures Enqueue(d, []) == d { assert d.fallbacks + [] == d.fallbacks; }
  }

  lemma {:induction false} PostsJoin(a: seq<Post>, b: seq<Post>)
    ensures ConnectsIn(a + b) == ConnectsIn(a) + ConnectsIn(b)
    ensures FallbacksIn(a + b) == FallbacksIn(a) + FallbacksIn(b)
  {
    if a == [] {
      assert a + b == b && [] + FallbacksIn(b) == FallbacksIn(b);
    } else {
      assert (a + b)[1..] == a[1..] + b;
      PostsJoin(a[1..], b);
    }
  }

  lemma NoPosts()
    ensures ConnectsIn([]) == 0 && FallbacksIn([]) == []
  {
  }

  /**
   No contract and no failure is lost or made up: every contract that negotiations have posted has become one carrier
   or is still to be handled, and every failure has been reported, in order, or is still to be.
   */
  lemma {:induction false} EveryPostCounts(c: Conn, steps: seq<Step>)
    ensures Launched(c, steps) + Run(c, steps).connects == c.connects + ConnectsIn(Posted(c, steps))
    ensures Reported(c, steps) + Run(c, steps).fallbacks == c.fallbacks + FallbacksIn(Posted(c, steps))
    decreases |steps|
  {
    hide Next, Enabled, PostedIn, ReportedIn, ConnectsIn, FallbacksIn;
    if steps == [] {
      NoPosts();
      assert c.fallbacks + [] == c.fallbacks == [] + c.fallbacks;
    } else {
      var d, rest := Next(c, steps[0]), steps[1..];
      EveryPostCounts(d, rest);
      PostedStep(c, steps[0]);
      PostsJoin(PostedIn(c, steps[0]), Posted(d, rest));
      Regrouped(ReportedIn(c, steps[0]), Reported(d, rest), Run(d, rest).fallbacks,
        d.fallbacks, c.fallbacks, FallbacksIn(PostedIn(c, steps[0])), FallbacksIn(Posted(d, rest)));
    }
  }

  lemma Regrouped(here: seq<string>, later: seq<string>, end: seq<string>, next: seq<string>,
                  pending: seq<string>, now: seq<string>, after: seq<string>)
    requires here + next == pending + now && later + end == next + after
    ensures here + later + end == pending + (now + after)
  {
    assert here + later + end == here + (later + end) == (here + next) + after == pending + (now + after);
  }

  // ---------------------------------------------------------------------------------------------------------
  // That it happens
  // ---------------------------------------------------------------------------------------------------------

  /** A service of either kind can get a carrier: its first negotiation ends in a contract, which is handled. */
  lemma CanServe(config: Config, service: Service, late: Choice, pid: nat)
    ensures exists steps :: pid in Run(Fresh(0), steps).tunnels
  {
    hide Run, Stranding, Restarted;
    var restart, post, launch := Restart(config, service, late), Callback(Connect, !service.local), RunConnect(pid);
    RestartEffect(Fresh(0), config, service, late);
    var c := Next(Fresh(0), restart);
    var d := Next(c, post);
    var e := Next(d, launch);
    RunCons(Fresh(0), restart, [post] + ([launch] + []));
    RunCons(c, post, [launch] + []);
    RunCons(d, launch, []);
    RunNone(e);
    assert c.phase.Running? && c.tunnels == {} && c.service.local == service.local;
    assert d.connects > 0 && d.tunnels == {};
  }

  /** A negotiation can fail with an exception at any time; its text is then posted as a failure. */
  lemma CanThrow(c: Conn, error: string)
    requires c.phase.Running?
    ensures var d := Next(Next(c, Throw), ThrowPost(error));
      d.phase.Idle? && d.fallbacks == c.fallbacks + [error] && d.connects == c.connects
  {
    assert FallbacksIn([Fallback(error)]) == [error] + FallbacksIn([]);
    assert ConnectsIn([Fallback(error)]) == ConnectsIn([]);
  }

  /** What a thread may have posted when it is joined: anything for an export, at most one callback for an import. */
  lemma LateIsFree(c: Conn, posts: seq<Post>)
    requires c.phase.Running?
    ensures LateOf(c, Choice(posts, "")) == if c.service.local || |posts| <= 1 then posts else posts[..1]
  {
  }
}

/** The same for the connectors of the whole supervisor. */
module BackendHistories {
  import opened Settings
  import opened Connectors
  import opened Histories
  import opened Engines
  import opened Backends

  /** The event launches carrier `pid` of the connector that `id` refers to, or is its exit. */
  predicate LaunchesAt(b: Backend, ev: Event, id: Id, pid: nat) {
    ev.Act? && ev.id == id && Alive(b.pool, id) && Launches(b.pool[id.key].bundle[id.pier], ev.step, pid)
  }

  predicate ExitsAt(b: Backend, ev: Event, id: Id, pid: nat) {
    ev.Act? && ev.id == id && Alive(b.pool, id) && Exits(b.pool[id.key].bundle[id.pier], ev.step, pid)
  }

  predicate LaunchedIn(evs: seq<Event>, i: nat, id: Id, pid: nat) {
    && i < |evs| && LaunchesAt(Backends.Run(START, evs[..i]), evs[i], id, pid)
    && forall j :: i < j < |evs| ==> !ExitsAt(Backends.Run(START, evs[..j]), evs[j], id, pid)
  }

  lemma {:induction false} BackendRunLast(b: Backend, evs: seq<Event>)
    requires evs != []
    ensures Backends.Run(b, evs) == Backends.Next(Backends.Run(b, evs[..|evs| - 1]), evs[|evs| - 1])
    decreases |evs|
  {
    hide Backends.Next;
    if |evs| > 1 {
      BackendRunLast(Backends.Next(b, evs[0]), evs[1..]);
      assert evs[1..][..|evs| - 2] == evs[..|evs| - 1][1..];
    }
  }

  /** Births are in the past. */
  lemma Born(evs: seq<Event>, id: Id)
    requires Alive(Backends.Run(START, evs).pool, id)
    ensures id.birth < Backends.Run(START, evs).served
  {
    hide Backends.Run, Sound, Backends.Stranding, RunKeepsKind;
    ReachableIsGood(evs);
    var b := Backends.Run(START, evs);
    assert Good(b.pool[id.key].bundle[id.pier], b.served, false);
  }

  /** What an event makes of the carriers of a connector that is alive after it. */
  lemma CarriersStep(evs: seq<Event>, ev: Event, id: Id, pid: nat)
    requires Alive(Backends.Next(Backends.Run(START, evs), ev).pool, id)
    ensures var b := Backends.Run(START, evs); var d := Backends.Next(b, ev);
      pid in d.pool[id.key].bundle[id.pier].tunnels <==>
        || LaunchesAt(b, ev, id, pid)
        || (Alive(b.pool, id) && pid in b.pool[id.key].bundle[id.pier].tunnels && !ExitsAt(b, ev, id, pid))
  {
    hide Backends.Run, Connectors.Next, Served, Launches, Exits;
    var b := Backends.Run(START, evs);
    match ev
    case Serve(req, disk, env) =>
      ServedDescends(b, req, disk, env);
      if Alive(b.pool, id) { Born(evs, id); }
    case Act(other, step) =>
      if Alive(b.pool, id) {
        if other == id && !step.Restart? { TunnelsStep(b.pool[id.key].bundle[id.pier], step, pid); }
        if other == id && step.Restart? { NoStep(b.pool[id.key].bundle[id.pier], step, pid); }
      } else {
        ActKeepsDead(b, other, step, id);
      }
  }

  lemma NoStep(c: Conn, s: Step, pid: nat)
    requires s.Restart?
    ensures !Launches(c, s, pid) && !Exits(c, s, pid)
  {
  }

  lemma ActKeepsDead(b: Backend, other: Id, step: Step, id: Id)
    requires !Alive(b.pool, id)
    ensures !Alive(Acted(b, other, step).pool, id)
  {
    hide Connectors.Next;
    if Alive(b.pool, other) { StepKeepsBirth(b.pool[other.key].bundle[other.pier], step); }
  }

  /** A launch is of a connector that has been there. */
  lemma {:induction false} NoLaunchBefore(evs: seq<Event>, id: Id, pid: nat, i: nat)
    requires i < |evs| && LaunchesAt(Backends.Run(START, evs[..i]), evs[i], id, pid)
    ensures id.birth < Backends.Run(START, evs).served
    decreases |evs|
  {
    hide Backends.Run, Launches, Alive, Backends.Next;
    var n := |evs| - 1;
    BackendRunLast(START, evs);
    ServedGrows(Backends.Run(START, evs[..n]), evs[n]);
    if i == n {
      assert evs[..i] == evs[..n];
      Born(evs[..n], id);
    } else {
      assert evs[..n][..i] == evs[..i];
      NoLaunchBefore(evs[..n], id, pid, i);
    }
  }

  lemma ServedGrows(b: Backend, ev: Event)
    ensures b.served <= Backends.Next(b, ev).served
  {
    hide Built, PoolAfter, Connectors.Next;
  }

  /** A connector that is alive and was not before has just been made. */
  lemma JustMade(b: Backend, ev: Event, id: Id)
    requires !Alive(b.pool, id) && Alive(Backends.Next(b, ev).pool, id)
    ensures id.birth == b.served
  {
    hide Served, Connectors.Next;
    match ev
    case Serve(req, disk, env) => ServedDescends(b, req, disk, env);
    case Act(other, step) => ActKeepsDead(b, other, step, id);
  }

  /**
   In every reachable state, the carriers of a connector in the pool are exactly those that were launched for it and
   have not exited since, whatever requests have been served meanwhile.
   */
  lemma {:induction false} CarriersAreLaunched(evs: seq<Event>, id: Id, pid: nat)
    requires Alive(Backends.Run(START, evs).pool, id)
    ensures pid in Backends.Run(START, evs).pool[id.key].bundle[id.pier].tunnels <==>
      exists i: nat :: LaunchedIn(evs, i, id, pid)
    decreases |evs|
  {
    hide Backends.Next, Backends.Run, LaunchesAt, ExitsAt, Alive;
    if evs == [] {
      NothingAlive(id);
    } else {
      var n := |evs| - 1;
      var front := evs[..n];
      var b := Backends.Run(START, front);
      BackendRunLast(START, evs);
      CarriersStep(front, evs[n], id, pid);
      forall i | 0 <= i <= n ensures front[..i] == evs[..i] { }
      if Alive(b.pool, id) {
        CarriersAreLaunched(front, id, pid);
        if i: nat :| LaunchedIn(front, i, id, pid) {
          if !ExitsAt(b, evs[n], id, pid) { assert LaunchedIn(evs, i, id, pid); }
        }
      }
      if LaunchesAt(b, evs[n], id, pid) { assert LaunchedIn(evs, n, id, pid); }
      if i: nat :| LaunchedIn(evs, i, id, pid) {
        if i < n {
          assert LaunchedIn(front, i, id, pid);
          NoLaunchBefore(front, id, pid, i);
          if !Alive(b.pool, id) { JustMade(b, evs[n], id); }
        }
      }
    }
  }

  lemma NothingAlive(id: Id)
    ensures !Alive(Backends.Run(START, []).pool, id)
  {
  }
}
