/**
 The connector of src/backend/server.cpp: the part of a service that keeps one remote pier connected.

 A connector owns a negotiation thread, a retry timer and the carrier processes it has launched; callbacks of
 the negotiation reach it as closures posted to the (single-threaded) io context. `Conn` is the state of one
 connector together with the posted closures and timer completions that still refer to it. `Next` is one
 atomic step; a step that is not enabled leaves the state alone, so every sequence of steps is a run.
 */
module Connectors {
  import opened Settings

  /** What a negotiation can report: a contract to launch a carrier for, or a failure. */
  datatype Post = Connect | Fallback(error: string)

  /**
   The negotiation thread. `Running`: its io context runs and callbacks may still come. `Winding`: the last
   callback has been posted, the io context has not run dry yet (so `active()` still holds). `Failing`: an
   exception stopped the io context and the fallback for it is about to be posted. `Idle`: no thread.
   */
  datatype Phase = Idle | Running | Winding | Failing

  /** How a thread that is being stopped and joined behaves: what it would still post, and its exception text. */
  datatype Choice = Choice(posts: seq<Post>, error: string)

  datatype Conn = Conn(
    birth: nat,               // the request that created the connector; its identity together with handle and pier
    config: Config,           // m_config
    service: Service,         // m_service, with the one pier this connector is for
    phase: Phase,             // m_spawner
    threads: int,             // negotiation threads started and not yet ended
    error: string,            // m_error
    armed: bool,              // m_timer has a pending wait
    firings: nat,             // completions of m_timer queued without an error code
    connects: nat,            // posted connect closures
    fallbacks: seq<string>,   // posted fallback closures, in order
    tunnels: set<nat>,        // m_tunnels, by pid token
    restarts: nat)            // how often restart() was called

  datatype Step =
    | Restart(config: Config, service: Service, late: Choice)   // the controller calls restart()
    | Callback(post: Post, last: bool)          // the negotiation posts a callback; `last` if it will not call again
    | Settle                                    // a negotiation that made its last callback ends
    | Throw                                     // the negotiation throws: its io context is stopped
    | ThrowPost(error: string)                  // ... and the exception text is posted as a fallback
    | RunConnect(pid: nat)                      // a posted connect closure runs and launches carrier `pid`
    | RunFallback                               // the oldest posted fallback closure runs
    | Expire                                    // the armed timer expires and its completion is queued
    | RunTimer(late: Choice)                    // a queued timer completion runs
    | Exit(pid: nat, late: Choice)              // the exit handler of carrier `pid` runs

  /** A connector as constructed, before its first restart. */
  function Fresh(birth: nat): Conn {
    Conn(birth, EMPTY_CONFIG, EMPTY_SERVICE, Idle, 0, "", false, 0, 0, [], {}, 0)
  }

  /** m_spawner->active(): there is an io context and it has not been stopped. */
  predicate Active(c: Conn) {
    c.phase.Running? || c.phase.Winding?
  }

  function ConnectsIn(posts: seq<Post>): nat {
    if posts == [] then 0 else (if posts[0].Connect? then 1 else 0) + ConnectsIn(posts[1..])
  }

  function FallbacksIn(posts: seq<Post>): seq<string> {
    if posts == [] then [] else (if posts[0].Connect? then [] else [posts[0].error]) + FallbacksIn(posts[1..])
  }

  /** The closures that the connect and fallback callbacks post to m_io. */
  function Enqueue(c: Conn, posts: seq<Post>): Conn {
    c.(connects := c.connects + ConnectsIn(posts), fallbacks := c.fallbacks + FallbacksIn(posts))
  }

  /**
   What complete() may find posted by the time the thread is joined: an invite makes at most one callback in
   all, an accept any number, a throwing thread exactly its fallback, a winding one nothing more.
   */
  function LateOf(c: Conn, late: Choice): seq<Post> {
    match c.phase
    case Idle => []
    case Winding => []
    case Failing => [Fallback(late.error)]
    case Running => if c.service.local || late.posts == [] then late.posts else [late.posts[0]]
  }

  /** spawner::complete(): stop the io context and join the thread. */
  function Completed(c: Conn, late: Choice): Conn {
    Enqueue(c.(phase := Idle, threads := if c.phase.Idle? then c.threads else c.threads - 1), LateOf(c, late))
  }

  /** spawner::startup(): complete, then start a new negotiation thread. */
  function StartedUp(c: Conn, late: Choice): Conn {
    var d := Completed(c, late);
    d.(phase := Running, threads := d.threads + 1)
  }

  function Restarted(c: Conn, config: Config, service: Service, late: Choice): Conn {
    var d := Completed(c.(armed := false), late).(config := config, service := service, restarts := c.restarts + 1);
    if service.local || c.tunnels == {} then StartedUp(d.(error := ""), late) else d
  }

  function FellBack(c: Conn, error: string): Conn {
    c.(error := error, armed := true)
  }

  function TimerRan(c: Conn, late: Choice): Conn {
    var d := c.(error := "");
    if d.service.local && Active(d) then d else StartedUp(d, late)
  }

  function Exited(c: Conn, pid: nat, late: Choice): Conn {
    var d := c.(tunnels := c.tunnels - {pid});
    if d.service.local then d else StartedUp(d.(error := ""), late)
  }

  predicate Enabled(c: Conn, s: Step) {
    match s
    case Restart(_, _, _) => true
    case Callback(post, last) => c.phase.Running? && (if c.service.local then last ==> post.Fallback? else last)
    case Settle => c.phase.Winding?
    case Throw => c.phase.Running?
    case ThrowPost(_) => c.phase.Failing?
    case RunConnect(pid) => 0 < c.connects && pid !in c.tunnels
    case RunFallback => c.fallbacks != []
    case Expire => c.armed
    case RunTimer(_) => 0 < c.firings
    case Exit(pid, _) => pid in c.tunnels
  }

  function Next(c: Conn, s: Step): Conn {
    if !Enabled(c, s) then c
    else
      match s
      case Restart(config, service, late) => Restarted(c, config, service, late)
      case Callback(post, last) => Enqueue(c.(phase := if last then Winding else Running), [post])
      case Settle => c.(phase := Idle, threads := c.threads - 1)
      case Throw => c.(phase := Failing)
      case ThrowPost(e) => Enqueue(c.(phase := Idle, threads := c.threads - 1), [Fallback(e)])
      case RunConnect(pid) => c.(connects := c.connects - 1, tunnels := c.tunnels + {pid})
      case RunFallback => FellBack(c.(fallbacks := c.fallbacks[1..]), c.fallbacks[0])
      case Expire => c.(armed := false, firings := c.firings + 1)
      case RunTimer(late) => TimerRan(c.(firings := c.firings - 1), late)
      case Exit(pid, late) => Exited(c, pid, late)
  }

  function Run(c: Conn, steps: seq<Step>): Conn
    decreases |steps|
  {
    if steps == [] then c else Run(Next(c, steps[0]), steps[1..])
  }

  // ---------------------------------------------------------------------------------------------------------
  // What the states mean
  // ---------------------------------------------------------------------------------------------------------

  /** Everything that keeps an import going: negotiation, posted results, retry timer, tunnels. */
  function Tokens(c: Conn): nat {
    (if c.phase.Running? || c.phase.Failing? then 1 else 0) + c.connects + |c.fallbacks|
    + (if c.armed then 1 else 0) + c.firings + |c.tunnels|
  }

  predicate RetryPending(c: Conn) {
    c.armed || 0 < c.firings
  }

  /** The connector will act again without help from outside. */
  predicate Live(c: Conn) {
    if c.restarts == 0 then true
    else if c.service.local then c.phase.Running? || c.phase.Failing? || c.fallbacks != [] || RetryPending(c)
    else 0 < Tokens(c)
  }

  /** Thread accounting, meaning of a non-empty error, and the state before the first restart. */
  predicate Sound(c: Conn) {
    && c.threads == (if c.phase.Idle? then 0 else 1)
    && (c.error != "" ==> RetryPending(c) || (!c.service.local && c.tunnels != {}))
    && (c.restarts == 0 ==> c == Fresh(c.birth))
  }

  /**
   The one step that strands an export: the last pending retry of a negotiation that has made its last
   callback fires before the thread's io context has run dry, and takes the thread for an active one.
   */
  predicate Strands(c: Conn, s: Step) {
    s.RunTimer? && c.service.local && c.phase.Winding? && c.firings == 1 && !c.armed && c.fallbacks == []
  }

  predicate Stranding(c: Conn, steps: seq<Step>)
    decreases |steps|
  {
    steps != [] && (Strands(c, steps[0]) || Stranding(Next(c, steps[0]), steps[1..]))
  }

  /** The connector that `steps` restart is an import all along. */
  predicate ImportRun(steps: seq<Step>) {
    forall i :: 0 <= i < |steps| && steps[i].Restart? ==> !steps[i].service.local
  }

  function RestartCount(steps: seq<Step>): nat {
    if steps == [] then 0 else (if steps[0].Restart? then 1 else 0) + RestartCount(steps[1..])
  }

  // ---------------------------------------------------------------------------------------------------------
  // One step
  // ---------------------------------------------------------------------------------------------------------

  lemma {:induction false} PostsCount(posts: seq<Post>)
    ensures ConnectsIn(posts) + |FallbacksIn(posts)| == |posts|
  {
    if posts != [] { PostsCount(posts[1..]); }
  }

  lemma EnqueueFields(c: Conn, posts: seq<Post>)
    ensures var d := Enqueue(c, posts);
      && d == c.(connects := d.connects, fallbacks := d.fallbacks)
      && d.connects + |d.fallbacks| == c.connects + |c.fallbacks| + |posts|
      && d.connects >= c.connects && c.fallbacks <= d.fallbacks
  {
    PostsCount(posts);
  }

  /** Joining the thread leaves no thread and never adds to what an import has going. */
  lemma CompleteEffect(c: Conn, late: Choice)
    requires Sound(c)
    ensures var d := Completed(c, late);
      && d == c.(phase := Idle, threads := 0, connects := d.connects, fallbacks := d.fallbacks)
      && d.connects >= c.connects && |d.fallbacks| >= |c.fallbacks|
      && (c.phase.Failing? ==> d.fallbacks != [])
      && (!c.service.local ==> Tokens(d) <= Tokens(c))
  {
    EnqueueFields(c.(phase := Idle, threads := 0), LateOf(c, late));
  }

  lemma StartupEffect(c: Conn, late: Choice)
    requires Sound(c)
    ensures var d := StartedUp(c, late);
      && d == c.(phase := Running, threads := 1, connects := d.connects, fallbacks := d.fallbacks)
      && (!c.service.local ==> Tokens(d) <= Tokens(c) + 1)
  {
    CompleteEffect(c, late);
  }

  lemma RestartEffect(c: Conn, config: Config, service: Service, late: Choice)
    requires Sound(c)
    ensures var d := Restarted(c, config, service, late);
      && Sound(d) && Live(d)
      && d.birth == c.birth && d.tunnels == c.tunnels && d.restarts == c.restarts + 1
      && d.config == config && d.service == service
      && d.firings == c.firings && !d.armed
      && (service.local || c.tunnels == {} ==> d.phase.Running? && d.error == "")
      && (!service.local && c.tunnels != {} ==> d.phase.Idle? && d.error == c.error)
      && (!c.service.local ==> Tokens(d) <= Tokens(c) + 1)
  {
    var b := c.(armed := false);
    EnqueueFields(b.(phase := Idle, threads := 0), LateOf(b, late));
    assert !c.service.local ==> Tokens(Completed(b, late)) <= Tokens(c);
  }

  /** Every step keeps the thread count at zero or one and a reported error recoverable. */
  lemma SoundStep(c: Conn, s: Step)
    requires Sound(c)
    ensures Sound(Next(c, s))
  {
    if Enabled(c, s) {
      match s
      case Restart(config, service, late) => RestartEffect(c, config, service, late);
      case Callback(post, last) => EnqueueFields(c.(phase := if last then Winding else Running), [post]);
      case ThrowPost(e) => EnqueueFields(c.(phase := Idle, threads := c.threads - 1), [Fallback(e)]);
      case RunTimer(late) =>
        var d := c.(firings := c.firings - 1, error := "");
        if !(d.service.local && Active(d)) { EnqueueFields(d.(phase := Idle, threads := 0), LateOf(d, late)); }
      case Exit(pid, late) =>
        if !c.service.local {
          var d := c.(tunnels := c.tunnels - {pid}, error := "");
          EnqueueFields(d.(phase := Idle, threads := 0), LateOf(d, late));
        }
      case _ =>
    }
  }

  /** A live connector stays live under a step exactly when the step is not the stranding one. */
  lemma LiveStep(c: Conn, s: Step)
    requires Sound(c) && Live(c)
    ensures Live(Next(c, s)) <==> !Strands(c, s)
  {
    hide Restarted, StartedUp, Completed, LateOf;
    if Enabled(c, s) {
      match s
      case Restart(config, service, late) => RestartEffect(c, config, service, late);
      case Callback(post, last) => EnqueueFields(c.(phase := if last then Winding else Running), [post]);
      case ThrowPost(e) => EnqueueFields(c.(phase := Idle, threads := c.threads - 1), [Fallback(e)]);
      case RunTimer(late) => StartupEffect(c.(firings := c.firings - 1, error := ""), late);
      case Exit(pid, late) =>
        if !c.service.local { StartupEffect(c.(tunnels := c.tunnels - {pid}, error := ""), late); }
      case _ =>
    }
  }

  /** Only restart() can raise what an import has going, and then by one. */
  lemma TokensStep(c: Conn, s: Step)
    requires Sound(c) && !c.service.local
    ensures Tokens(Next(c, s)) <= Tokens(c) + (if s.Restart? then 1 else 0)
  {
    hide Restarted, StartedUp, Completed, LateOf, Enqueue;
    if Enabled(c, s) {
      match s
      case Restart(config, service, late) => RestartEffect(c, config, service, late);
      case Callback(post, last) => EnqueueFields(c.(phase := if last then Winding else Running), [post]);
      case ThrowPost(e) => EnqueueFields(c.(phase := Idle, threads := c.threads - 1), [Fallback(e)]);
      case RunTimer(late) => StartupEffect(c.(firings := c.firings - 1, error := ""), late);
      case Exit(pid, late) => StartupEffect(c.(tunnels := c.tunnels - {pid}, error := ""), late);
      case _ =>
    }
  }

  lemma StepFields(c: Conn, s: Step)
    requires Sound(c)
    ensures var d := Next(c, s);
      && d.birth == c.birth
      && (!s.Restart? ==> d.config == c.config && d.service == c.service)
      && d.restarts == c.restarts + (if s.Restart? then 1 else 0)
      && (!s.RunConnect? ==> d.tunnels <= c.tunnels)
      && (!s.RunConnect? && !s.Exit? ==> d.tunnels == c.tunnels)
  {
    hide Restarted, StartedUp, Completed, LateOf, Enqueue;
    if Enabled(c, s) {
      match s
      case Restart(config, service, late) => RestartEffect(c, config, service, late);
      case Callback(post, last) => EnqueueFields(c.(phase := if last then Winding else Running), [post]);
      case ThrowPost(e) => EnqueueFields(c.(phase := Idle, threads := c.threads - 1), [Fallback(e)]);
      case RunTimer(late) => StartupEffect(c.(firings := c.firings - 1, error := ""), late);
      case Exit(pid, late) =>
        if !c.service.local { StartupEffect(c.(tunnels := c.tunnels - {pid}, error := ""), late); }
      case _ =>
    }
  }

  // ---------------------------------------------------------------------------------------------------------
  // Whole runs
  // ---------------------------------------------------------------------------------------------------------

  /** In every reachable state there is at most one negotiation thread and every error is being dealt with. */
  lemma {:induction false} RunSound(c: Conn, steps: seq<Step>)
    requires Sound(c)
    ensures var d := Run(c, steps); Sound(d) && d.threads <= 1
    decreases |steps|
  {
    if steps != [] {
      SoundStep(c, steps[0]);
      RunSound(Next(c, steps[0]), steps[1..]);
    }
  }

  /**
   An import after its first restart always has something going, and never more than one thing per restart:
   it does not get stuck, and a connector restarted once has at most one tunnel or negotiation.
   */
  lemma {:induction false} ImportTokens(birth: nat, steps: seq<Step>)
    requires ImportRun(steps)
    ensures var d := Run(Fresh(birth), steps);
      && d.restarts == RestartCount(steps)
      && Tokens(d) <= RestartCount(steps)
      && (0 < RestartCount(steps) ==> 1 <= Tokens(d))
  {
    ImportTokensFrom(Fresh(birth), steps);
  }

  lemma {:induction false} ImportTokensFrom(c: Conn, steps: seq<Step>)
    requires ImportRun(steps) && Sound(c) && Live(c) && !c.service.local && Tokens(c) <= c.restarts
    ensures var d := Run(c, steps);
      && !d.service.local && d.restarts == c.restarts + RestartCount(steps)
      && Tokens(d) <= d.restarts && (0 < d.restarts ==> 1 <= Tokens(d))
    decreases |steps|
  {
    if steps != [] {
      var s := steps[0];
      SoundStep(c, s);
      LiveStep(c, s);
      TokensStep(c, s);
      StepFields(c, s);
      ImportTokensFrom(Next(c, s), steps[1..]);
    }
  }

  /** The step takes back what has gone wrong: it starts a negotiation, or finds one at work. */
  predicate Clears(c: Conn, s: Step) {
    && Enabled(c, s)
    && (s.RunTimer? || (s.Exit? && !c.service.local) || (s.Restart? && (s.service.local || c.tunnels == {})))
  }

  predicate Fails(c: Conn, s: Step) {
    s.RunFallback? && c.fallbacks != []
  }

  /** Step `i` is the last failure to be reported, and nothing has taken it back. */
  predicate LastFailure(c: Conn, steps: seq<Step>, i: nat) {
    && i < |steps| && Fails(Run(c, steps[..i]), steps[i])
    && forall j :: i < j < |steps| ==> !Fails(Run(c, steps[..j]), steps[j]) && !Clears(Run(c, steps[..j]), steps[j])
  }

  lemma ErrorStep(c: Conn, s: Step)
    requires Sound(c)
    ensures Next(c, s).error == if Fails(c, s) then c.fallbacks[0] else if Clears(c, s) then "" else c.error
  {
    hide Restarted, StartedUp, Completed, LateOf;
    if Enabled(c, s) {
      match s
      case Restart(config, service, late) => RestartEffect(c, config, service, late);
      case RunTimer(late) => StartupEffect(c.(firings := c.firings - 1, error := ""), late);
      case Exit(pid, late) =>
        if !c.service.local { StartupEffect(c.(tunnels := c.tunnels - {pid}, error := ""), late); }
      case _ =>
    }
  }

  lemma {:induction false} RunLast(c: Conn, steps: seq<Step>)
    requires steps != []
    ensures Run(c, steps) == Next(Run(c, steps[..|steps| - 1]), steps[|steps| - 1])
    decreases |steps|
  {
    hide Next;
    if |steps| > 1 {
      RunLast(Next(c, steps[0]), steps[1..]);
      assert steps[1..][..|steps| - 2] == steps[..|steps| - 1][1..];
    }
  }

  /** The reported error is the text of the last failure that nothing has taken back, if there is one. */
  lemma {:induction false} ErrorIsLastFailure(c: Conn, steps: seq<Step>)
    requires Sound(c) && c.error == ""
    ensures forall i: nat :: LastFailure(c, steps, i) ==> Run(c, steps).error == Run(c, steps[..i]).fallbacks[0]
    ensures Run(c, steps).error != "" ==> exists i: nat :: LastFailure(c, steps, i)
    decreases |steps|
  {
    hide Next, Sound, Enabled, Clears, Run;
    if steps == [] {
      assert Run(c, steps) == c by { RunNone(c); }
    } else {
      var n := |steps| - 1;
      var front := steps[..n];
      var e := Run(c, front);
      ErrorIsLastFailure(c, front);
      RunSound(c, front);
      RunLast(c, steps);
      ErrorStep(e, steps[n]);
      forall i | 0 <= i < n ensures front[..i] == steps[..i] { }
      if Fails(e, steps[n]) {
        assert LastFailure(c, steps, n);
      } else if !Clears(e, steps[n]) {
        forall i: nat | LastFailure(c, front, i) ensures LastFailure(c, steps, i) { }
      }
      forall i: nat | LastFailure(c, steps, i) && i < n ensures LastFailure(c, front, i) { }
    }
  }

  lemma RunNone(c: Conn)
    ensures Run(c, []) == c
  {
  }

  /** An export (or any connector) stays live over a run exactly as long as the stranding step is not taken ... */
  lemma {:induction false} RunLive(c: Conn, steps: seq<Step>)
    requires Sound(c) && Live(c) && !Stranding(c, steps)
    ensures Live(Run(c, steps))
    decreases |steps|
  {
    if steps != [] {
      SoundStep(c, steps[0]);
      LiveStep(c, steps[0]);
      RunLive(Next(c, steps[0]), steps[1..]);
    }
  }

  /** ... and a stranded one stays so, and starts no negotiation, until somebody restarts it. */
  lemma {:induction false} StrandedForGood(c: Conn, steps: seq<Step>)
    requires Sound(c) && !Live(c) && RestartCount(steps) == 0
    ensures var d := Run(c, steps); !Live(d) && !d.phase.Running?
    decreases |steps|
  {
    if steps != [] {
      var s := steps[0];
      assert !s.Restart? && RestartCount(steps[1..]) == 0;
      SoundStep(c, s);
      StrandedForGood(Next(c, s), steps[1..]);
    }
  }

  lemma RunCons(c: Conn, s: Step, rest: seq<Step>)
    ensures Run(c, [s] + rest) == Run(Next(c, s), rest)
    ensures Stranding(c, [s] + rest) <==> Strands(c, s) || Stranding(Next(c, s), rest)
  {
    assert ([s] + rest)[1..] == rest;
  }

  /** An export whose negotiation has failed but not ended is stranded by its own retry timer ... */
  lemma FailedExportStrands(c: Conn, late: Choice)
    requires c.service.local && c.restarts != 0 && c.phase.Winding? && |c.fallbacks| == 1 && c.firings == 0
    ensures var steps := [RunFallback] + ([Expire] + ([RunTimer(late)] + []));
      Stranding(c, steps) && !Live(Run(c, steps))
  {
    var d := Next(c, RunFallback);
    var e := Next(d, Expire);
    RunCons(e, RunTimer(late), []);
    RunCons(d, Expire, [RunTimer(late)] + []);
    RunCons(c, RunFallback, [Expire] + ([RunTimer(late)] + []));
  }

  /** ... and such a state is reached: the first negotiation reports a failure. */
  lemma ExportCanStrand(config: Config, service: Service, late: Choice)
    requires service.local
    ensures exists steps :: Stranding(Fresh(0), steps) && !Live(Run(Fresh(0), steps))
  {
    hide Restarted, TimerRan, Exited, FellBack, Run, Stranding, Live;
    var fail, rest := Callback(Fallback("timeout"), true), [RunFallback] + ([Expire] + ([RunTimer(late)] + []));
    var c := Next(Fresh(0), Restart(config, service, late));
    RestartEffect(Fresh(0), config, service, late);
    assert c.phase.Running? && c.fallbacks == [] && c.firings == 0;
    EnqueueFields(c.(phase := Winding), [Fallback("timeout")]);
    assert FallbacksIn([Fallback("timeout")]) == ["timeout"] + FallbacksIn([]);
    FailedExportStrands(Next(c, fail), late);
    RunCons(c, fail, rest);
    RunCons(Fresh(0), Restart(config, service, late), [fail] + rest);
  }

  /** A run without restarts that brings a live connector back to negotiating, or an import to a tunnel. */
  function Recovery(c: Conn, late: Choice): seq<Step>
    requires c.restarts != 0 && Live(c)
  {
    if c.phase.Running? then []
    else if !c.service.local && c.tunnels != {} then []
    else if !c.service.local && 0 < c.connects then [RunConnect(0)]
    else if c.phase.Failing? then [ThrowPost(late.error), RunFallback, Expire, RunTimer(late)]
    else if 0 < c.firings then [Settle, RunTimer(late)]
    else if c.armed then [Settle, Expire, RunTimer(late)]
    else [Settle, RunFallback, Expire, RunTimer(late)]
  }

  /** Liveness is worth its name: from every live state the connector can get back to work by itself. */
  lemma LiveRecovers(c: Conn, late: Choice)
    requires Sound(c) && Live(c) && c.restarts != 0
    ensures var steps := Recovery(c, late); var d := Run(c, steps);
      RestartCount(steps) == 0 && (d.phase.Running? || (!d.service.local && d.tunnels != {}))
  {
    var steps := Recovery(c, late);
    if c.phase.Running? || (!c.service.local && c.tunnels != {}) {
    } else if !c.service.local && 0 < c.connects {
      assert Run(c, steps) == Run(Next(c, steps[0]), []);
    } else if c.phase.Failing? {
      var d := Next(c, steps[0]);
      EnqueueFields(c.(phase := Idle, threads := c.threads - 1), [Fallback(late.error)]);
      RetryRuns(d, late);
      assert steps[1..] == [RunFallback, Expire, RunTimer(late)];
    } else {
      var d := Next(c, Settle);
      assert d.phase.Idle?;
      if 0 < c.firings {
        TimerRuns(d, late);
        assert steps[1..] == [RunTimer(late)];
      } else if c.armed {
        TimerRuns(Next(d, Expire), late);
        assert steps[1..] == [Expire, RunTimer(late)] && steps[1..][1..] == [RunTimer(late)];
      } else {
        RetryRuns(d, late);
        assert steps[1..] == [RunFallback, Expire, RunTimer(late)];
      }
    }
  }

  lemma TimerRuns(c: Conn, late: Choice)
    requires c.phase.Idle? && 0 < c.firings
    ensures Run(c, [RunTimer(late)]).phase.Running?
    ensures RestartCount([RunTimer(late)]) == 0
  {
    assert Run(c, [RunTimer(late)]) == Run(Next(c, RunTimer(late)), []);
  }

  lemma RetryRuns(c: Conn, late: Choice)
    requires c.phase.Idle? && c.fallbacks != []
    ensures Run(c, [RunFallback, Expire, RunTimer(late)]).phase.Running?
    ensures RestartCount([RunFallback, Expire, RunTimer(late)]) == 0
  {
    var s := [RunFallback, Expire, RunTimer(late)];
    var d := Next(Next(c, RunFallback), Expire);
    assert s[1..][1..] == [RunTimer(late)];
    assert Run(c, s) == Run(Next(c, RunFallback), s[1..]) == Run(d, [RunTimer(late)]);
    TimerRuns(d, late);
  }

  // ---------------------------------------------------------------------------------------------------------
  // The class
  // ---------------------------------------------------------------------------------------------------------

  /** The connector with its fields updated in place; every method is the step function of the same name. */
  class Connector {
    const birth: nat
    var config: Config
    var service: Service
    var phase: Phase
    var threads: int
    var error: string
    var armed: bool
    var firings: nat
    var connects: nat
    var fallbacks: seq<string>
    var tunnels: set<nat>
    var restarts: nat

    function View(): Conn
      reads this
    {
      Conn(birth, config, service, phase, threads, error, armed, firings, connects, fallbacks, tunnels, restarts)
    }

    constructor (birth: nat)
      ensures View() == Fresh(birth)
    {
      this.birth := birth;
      config, service, phase, threads, error := EMPTY_CONFIG, EMPTY_SERVICE, Idle, 0, "";
      armed, firings, connects, fallbacks, tunnels, restarts := false, 0, 0, [], {}, 0;
    }

    method Complete(late: Choice)
      modifies this
      ensures View() == Completed(old(View()), late)
    {
      var posts := LateOf(View(), late);
      connects, fallbacks := connects + ConnectsIn(posts), fallbacks + FallbacksIn(posts);
      if !phase.Idle? {
        threads := threads - 1;
      }
      phase := Idle;
    }

    method Startup(late: Choice)
      modifies this
      ensures View() == StartedUp(old(View()), late)
    {
      Complete(late);
      phase, threads := Running, threads + 1;
    }

    method Restart(config: Config, service: Service, late: Choice)
      modifies this
      ensures View() == Next(old(View()), Step.Restart(config, service, late))
    {
      armed := false;
      Complete(late);
      this.config, this.service, restarts := config, service, restarts + 1;
      if service.local || tunnels == {} {
        error := "";
        Startup(late);
      }
    }

    method Connect(pid: nat)
      requires 0 < connects && pid !in tunnels
      modifies this
      ensures View() == Next(old(View()), RunConnect(pid))
    {
      connects := connects - 1;
      tunnels := tunnels + {pid};
    }

    method Fallback()
      requires fallbacks != []
      modifies this
      ensures View() == Next(old(View()), RunFallback)
    {
      error, fallbacks := fallbacks[0], fallbacks[1..];
      armed := true;
    }

    method OnTimer(late: Choice)
      requires 0 < firings
      modifies this
      ensures View() == Next(old(View()), RunTimer(late))
    {
      firings := firings - 1;
      error := "";
      if service.local && Active(View()) {
        return;
      }
      Startup(late);
    }

    method OnExit(pid: nat, late: Choice)
      requires pid in tunnels
      modifies this
      ensures View() == Next(old(View()), Exit(pid, late))
    {
      tunnels := tunnels - {pid};
      if !service.local {
        error := "";
        Startup(late);
      }
    }
  }
}
