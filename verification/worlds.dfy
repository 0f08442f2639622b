/**
 Any number of contexts over one home, in any interleaving of their calls. A call is one event: the index of a
 context is its own, and files are written under the lock.
 */
module Worlds {
  import opened Text
  import opened Settings
  import opened Files
  import opened Store
  import opened Faithfulness

  /** A context and the stamp of the home when it was opened. */
  datatype Member = Member(ctx: Ctx, since: nat)

  datatype World = World(home: Home, members: map<nat, Member>)

  datatype Event = OpenHome(id: nat) | Call(id: nat, op: Op)

  function Result(w: World, ev: Event): Answer
    requires ev.Call? && ev.id in w.members
  {
    Exec(w.home, w.members[ev.id].ctx, ev.op)
  }

  function Next(w: World, ev: Event): World {
    match ev
    case OpenHome(id) =>
      var ctx := Open(w.home.disk);
      if ctx.Err? then w else w.(members := w.members[id := Member(ctx.value, w.home.stamp)])
    case Call(id, op) =>
      if id !in w.members then w
      else
        var a := Result(w, ev);
        World(a.home, w.members[id := w.members[id].(ctx := a.ctx)])
  }

  function Run(w: World, evs: seq<Event>): World
    decreases |evs|
  {
    if evs == [] then w else Run(Next(w, evs[0]), evs[1..])
  }

  /** The event is a call that gets the lock and so renews the stamp. */
  predicate Writes(w: World, ev: Event) {
    ev.Call? && ev.id in w.members && Result(w, ev).outcome in {Done, Refused, Failed}
  }

  // ---------------------------------------------------------------------------------------------------------
  // The stamp as a token
  // ---------------------------------------------------------------------------------------------------------

  /** Stamps are not from the future, and no two contexts have written with the same one. */
  predicate Stamped(w: World) {
    && (forall i :: i in w.members ==> w.members[i].since <= w.home.stamp)
    && (forall i :: i in w.members && w.members[i].ctx.time.Some? ==> w.members[i].ctx.time.value <= w.home.stamp)
    && (forall i, j ::
         i in w.members && j in w.members && i != j && w.members[i].ctx.time.Some? ==>
         w.members[i].ctx.time != w.members[j].ctx.time)
  }

  /** The context has written and nobody has since. */
  predicate HasToken(w: World, id: nat) {
    id in w.members && w.members[id].ctx.time == Some(w.home.stamp)
  }

  predicate IsStale(w: World, id: nat) {
    id in w.members && !Current(w.members[id].ctx, w.home.stamp)
  }

  /** The last writer of a run, starting with `last`. */
  function LastWriter(w: World, evs: seq<Event>, last: Option<nat>): Option<nat>
    decreases |evs|
  {
    if evs == [] then last
    else LastWriter(Next(w, evs[0]), evs[1..], if Writes(w, evs[0]) then Some(evs[0].id) else last)
  }

  lemma StampedStep(w: World, ev: Event)
    requires Stamped(w)
    ensures Stamped(Next(w, ev))
    ensures Next(w, ev).home.stamp == w.home.stamp + (if Writes(w, ev) then 1 else 0)
    ensures Writes(w, ev) ==> HasToken(Next(w, ev), ev.id)
    ensures !Writes(w, ev) ==> Next(w, ev).home == w.home
  {
    hide Exec, Open;
    if ev.Call? && ev.id in w.members {
      StaysCurrent(w.home, w.members[ev.id].ctx, ev.op);
    }
  }

  /** Of the contexts that have written, at most one is not stale: the last writer of the run. */
  lemma {:induction false} SingleToken(home: Home, evs: seq<Event>, id: nat)
    requires HasToken(Run(World(home, map[]), evs), id)
    ensures LastWriter(World(home, map[]), evs, None) == Some(id)
  {
    TokenFrom(World(home, map[]), evs, None, id);
  }

  lemma {:induction false} TokenFrom(w: World, evs: seq<Event>, last: Option<nat>, id: nat)
    requires Stamped(w) && (forall i: nat :: HasToken(w, i) ==> last == Some(i))
    requires HasToken(Run(w, evs), id)
    ensures LastWriter(w, evs, last) == Some(id)
    decreases |evs|
  {
    hide Next, Writes;
    if evs != [] {
      var d := Next(w, evs[0]);
      StampedStep(w, evs[0]);
      forall i: nat | HasToken(d, i) ensures (if Writes(w, evs[0]) then Some(evs[0].id) else last) == Some(i) {
        TokenStep(w, evs[0], i);
      }
      TokenFrom(d, evs[1..], if Writes(w, evs[0]) then Some(evs[0].id) else last, id);
    }
  }

  lemma TokenStep(w: World, ev: Event, i: nat)
    requires Stamped(w) && HasToken(Next(w, ev), i)
    ensures if Writes(w, ev) then i == ev.id else HasToken(w, i)
  {
    hide Exec, Open;
    if ev.Call? && ev.id in w.members {
      StaysCurrent(w.home, w.members[ev.id].ctx, ev.op);
    }
  }

  /** A stale context stays stale until it is reopened, and its calls leave home and stamp alone. */
  lemma {:induction false} StaleForEver(w: World, evs: seq<Event>, id: nat)
    requires Stamped(w) && IsStale(w, id)
    requires forall i :: 0 <= i < |evs| ==> evs[i] != OpenHome(id)
    ensures IsStale(Run(w, evs), id)
    decreases |evs|
  {
    hide Next, Stamped;
    if evs != [] {
      StampedStep(w, evs[0]);
      StaleStep(w, evs[0], id);
      StaleForEver(Next(w, evs[0]), evs[1..], id);
    }
  }

  lemma StaleStep(w: World, ev: Event, id: nat)
    requires Stamped(w) && IsStale(w, id) && ev != OpenHome(id)
    ensures IsStale(Next(w, ev), id)
    ensures ev.Call? && ev.id == id ==> Next(w, ev).home == w.home && Result(w, ev).outcome in {Stale, Nothing, Usage}
  {
    hide Exec, Open;
    if ev.Call? && ev.id in w.members {
      StaysCurrent(w.home, w.members[ev.id].ctx, ev.op);
    }
  }

  // ---------------------------------------------------------------------------------------------------------
  // No committed update is lost
  // ---------------------------------------------------------------------------------------------------------

  /** The context is the last writer, or has not written and nobody has since it was opened. */
  predicate InStep(m: Member, stamp: nat) {
    if m.ctx.time.Some? then m.ctx.time.value == stamp else m.since == stamp
  }

  predicate CachesAgree(w: World) {
    forall i :: i in w.members && InStep(w.members[i], w.home.stamp) ==> Agrees(w.members[i].ctx, w.home.disk)
  }

  /** No other context has written between the open of a context and its first write, which is this call. */
  predicate Clean(w: World, ev: Event) {
    Writes(w, ev) && w.members[ev.id].ctx.time.None? ==> w.members[ev.id].since == w.home.stamp
  }

  predicate FitCall(w: World, ev: Event) {
    ev.Call? && ev.id in w.members ==> Fits(ev.op, w.members[ev.id].ctx, w.home.disk)
  }

  predicate CleanRun(w: World, evs: seq<Event>)
    decreases |evs|
  {
    evs != [] ==> Clean(w, evs[0]) && FitCall(w, evs[0]) && CleanRun(Next(w, evs[0]), evs[1..])
  }

  predicate Commits(w: World, ev: Event) {
    Writes(w, ev) && Result(w, ev).outcome == Done
  }

  lemma CommitIsCall(w: World, ev: Event)
    requires Commits(w, ev)
    ensures ev.Call?
  {
  }

  /** The successful calls in the order in which they committed. */
  function Log(w: World, evs: seq<Event>): seq<Op>
    decreases |evs|
  {
    if evs == [] then []
    else
      var ev := evs[0];
      (if Commits(w, ev) then [ev.op] else []) + Log(Next(w, ev), evs[1..])
  }

  function Replay(d: Disk, ops: seq<Op>): Disk
    decreases |ops|
  {
    if ops == [] then d else Replay(Effect(d, ops[0]), ops[1..])
  }

  lemma CleanStep(w: World, ev: Event)
    requires Stamped(w) && CachesAgree(w) && Clean(w, ev) && FitCall(w, ev)
    ensures CachesAgree(Next(w, ev))
    ensures Next(w, ev).home.disk == if Commits(w, ev) then Effect(w.home.disk, ev.op) else w.home.disk
  {
    hide Exec, Open, Agrees, Effect, Fits;
    match ev
    case OpenHome(_) => if Open(w.home.disk).Ok? { OpenAgrees(w.home.disk); }
    case Call(id, op) =>
      if id in w.members {
        var m := w.members[id];
        StaysCurrent(w.home, m.ctx, op);
        if InStep(m, w.home.stamp) { ExecAgrees(w.home, m.ctx, op); }
      }
  }

  /**
   For any number of contexts and any interleaving the disk is what the successful calls make of it one after the
   other, in the order of their commits: no committed update is lost.
   */
  lemma {:induction false} NoLostUpdate(home: Home, evs: seq<Event>)
    requires CleanRun(World(home, map[]), evs)
    ensures var w := World(home, map[]); Run(w, evs).home.disk == Replay(home.disk, Log(w, evs))
  {
    RunReplays(World(home, map[]), evs);
  }

  lemma {:induction false} RunReplays(w: World, evs: seq<Event>)
    requires Stamped(w) && CachesAgree(w) && CleanRun(w, evs)
    ensures Run(w, evs).home.disk == Replay(w.home.disk, Log(w, evs))
    decreases |evs|
  {
    hide Next, Writes, Stamped, CachesAgree, Clean, FitCall, Effect, Commits;
    if evs != [] {
      var ev, rest := evs[0], evs[1..];
      var d := Next(w, ev);
      StampedStep(w, ev);
      CleanStep(w, ev);
      RunReplays(d, rest);
      if Commits(w, ev) {
        CommitIsCall(w, ev);
        assert ([ev.op] + Log(d, rest))[1..] == Log(d, rest);
      } else {
        assert [] + Log(d, rest) == Log(d, rest);
      }
    }
  }

  // ---------------------------------------------------------------------------------------------------------
  // Exactly when an update is lost
  // ---------------------------------------------------------------------------------------------------------

  predicate AllIndexed(w: World) {
    forall i :: i in w.members ==> Indexed(w.members[i].ctx)
  }

  /** If the event commits, its call is faithful to the files as they are. */
  predicate FaithfulAt(w: World, ev: Event) {
    Commits(w, ev) ==> Faithful(w.home.disk, w.members[ev.id].ctx, ev.op)
  }

  /** The world before event `n` of a run. */
  function At(home: Home, evs: seq<Event>, n: nat): World
    requires n <= |evs|
  {
    Run(World(home, map[]), evs[..n])
  }

  lemma {:induction false} RunLast(w: World, evs: seq<Event>, ev: Event)
    ensures Run(w, evs + [ev]) == Next(Run(w, evs), ev)
    ensures Log(w, evs + [ev]) == Log(w, evs) + if Commits(Run(w, evs), ev) then [ev.op] else []
    decreases |evs|
  {
    hide Next, Commits;
    if Commits(Run(w, evs), ev) { CommitIsCall(Run(w, evs), ev); }
    if evs == [] {
      assert [ev][1..] == [] && [] + [ev] == [ev];
      assert Run(Next(w, ev), []) == Next(w, ev) && Log(Next(w, ev), []) == [];
    } else {
      assert (evs + [ev])[1..] == evs[1..] + [ev];
      RunLast(Next(w, evs[0]), evs[1..], ev);
      if Commits(w, evs[0]) { CommitIsCall(w, evs[0]); }
    }
  }

  lemma {:induction false} ReplayAppend(d: Disk, log: seq<Op>, op: Op)
    ensures Replay(d, log + [op]) == Effect(Replay(d, log), op)
    decreases |log|
  {
    hide Effect;
    if log == [] {
      assert [op][1..] == [];
    } else {
      ReplayAppend(Effect(d, log[0]), log[1..], op);
      assert (log + [op])[1..] == log[1..] + [op];
    }
  }

  lemma IndexedStep(w: World, ev: Event)
    requires AllIndexed(w)
    ensures AllIndexed(Next(w, ev))
  {
    hide Exec, Open, Indexed;
    match ev
    case OpenHome(_) => if Open(w.home.disk).Ok? { OpenIndexed(w.home.disk); }
    case Call(id, op) => if id in w.members { IndexedStays(w.home, w.members[id].ctx, op); }
  }

  lemma {:induction false} RunIndexed(w: World, evs: seq<Event>)
    requires AllIndexed(w)
    ensures AllIndexed(Run(w, evs))
    decreases |evs|
  {
    hide AllIndexed, Next;
    if evs != [] {
      IndexedStep(w, evs[0]);
      RunIndexed(Next(w, evs[0]), evs[1..]);
    }
  }

  /** An event has on the disk the effect of its operation, if it commits, exactly when it is faithful. */
  lemma StepFaithful(w: World, ev: Event)
    requires AllIndexed(w)
    ensures var d := if Commits(w, ev) then Effect(w.home.disk, ev.op) else w.home.disk;
      Next(w, ev).home.disk == d <==> FaithfulAt(w, ev)
  {
    hide Exec, Open, Effect, Faithful, Indexed;
    if ev.Call? && ev.id in w.members {
      var ctx := w.members[ev.id].ctx;
      if Exec(w.home, ctx, ev.op).outcome == Done {
        ExecFaithful(w.home, ctx, ev.op);
      } else {
        OnlyDoneWrites(w.home, ctx, ev.op);
      }
    }
  }

  /** The disk after every part of a run is what the calls committed so far make of it one after the other. */
  ghost predicate NothingLost(home: Home, evs: seq<Event>) {
    forall n: nat :: n <= |evs| ==> At(home, evs, n).home.disk == Replay(home.disk, Log(World(home, map[]), evs[..n]))
  }

  lemma OneMore(home: Home, evs: seq<Event>, n: nat)
    requires n < |evs|
    requires At(home, evs, n).home.disk == Replay(home.disk, Log(World(home, map[]), evs[..n]))
    ensures At(home, evs, n + 1).home.disk == Replay(home.disk, Log(World(home, map[]), evs[..n + 1]))
      <==> FaithfulAt(At(home, evs, n), evs[n])
  {
    hide Next, Commits, Effect, FaithfulAt, AllIndexed;
    var w := World(home, map[]);
    assert evs[..n + 1] == evs[..n] + [evs[n]];
    RunLast(w, evs[..n], evs[n]);
    RunIndexed(w, evs[..n]) by { assert AllIndexed(w) by { NoneIndexed(home); } }
    StepFaithful(Run(w, evs[..n]), evs[n]);
    if Commits(Run(w, evs[..n]), evs[n]) {
      CommitIsCall(Run(w, evs[..n]), evs[n]);
      ReplayAppend(home.disk, Log(w, evs[..n]), evs[n].op);
    } else {
      assert Log(w, evs[..n]) + [] == Log(w, evs[..n]);
    }
  }

  lemma NoneIndexed(home: Home)
    ensures AllIndexed(World(home, map[]))
  {
  }

  /**
   For any number of contexts, clean or not, and any interleaving: at no time of a run is a committed update lost or
   spoilt if and only if every call that commits meets the condition of Faithfulness when it does.
   */
  lemma LostExactly(home: Home, evs: seq<Event>)
    ensures NothingLost(home, evs) <==> forall n: nat :: n < |evs| ==> FaithfulAt(At(home, evs, n), evs[n])
  {
    hide FaithfulAt, At, Replay, Log;
    if NothingLost(home, evs) {
      forall n: nat | n < |evs| ensures FaithfulAt(At(home, evs, n), evs[n]) { OneMore(home, evs, n); }
    }
    if forall n: nat :: n < |evs| ==> FaithfulAt(At(home, evs, n), evs[n]) {
      forall n: nat | n <= |evs|
        ensures At(home, evs, n).home.disk == Replay(home.disk, Log(World(home, map[]), evs[..n]))
      {
        FaithfulSoFar(home, evs, n);
      }
    }
  }

  lemma {:induction false} FaithfulSoFar(home: Home, evs: seq<Event>, n: nat)
    requires n <= |evs| && forall m: nat :: m < |evs| ==> FaithfulAt(At(home, evs, m), evs[m])
    ensures At(home, evs, n).home.disk == Replay(home.disk, Log(World(home, map[]), evs[..n]))
  {
    hide FaithfulAt;
    if n > 0 {
      FaithfulSoFar(home, evs, n - 1);
      OneMore(home, evs, n - 1);
    }
  }

  /**
   The hypothesis is needed: of two contexts that were opened together, the second to write for the first time
   is not checked, and silently undoes what the first has added.
   */
  lemma FirstWritesCollide(home: Home, a: Service, b: Service)
    requires Open(home.disk).Ok? && a.local && b.local && a.name != b.name
    requires var ctx := Open(home.disk).value;
      ctx.config.pier in ctx.bundle && a.name !in ctx.bundle[ctx.config.pier] && b.name !in ctx.bundle[ctx.config.pier]
    ensures var ctx := Open(home.disk).value; var local := ctx.config.pier;
      var first := Exec(home, ctx, AddExport(a));
      var second := Exec(first.home, ctx, AddExport(b));
      && first.outcome == Done && a.name in ServicesOn(first.home.disk, local)
      && second.outcome == Done && ServicesOn(second.home.disk, local) == ctx.bundle[local][b.name := b]
      && a.name !in ServicesOn(second.home.disk, local)
  {
    hide Agrees, ServicesOn, ContextConfig, ContextServices, SavedDoc;
    var ctx := Open(home.disk).value;
    var local := ctx.config.pier;
    OpenAgrees(home.disk);
    AgreesKeyed(ctx, home.disk, local);
    SaveAgrees(home, ctx, local, ctx.bundle[local][a.name := a]);
    var first := Exec(home, ctx, AddExport(a));
    AgreesKeyed(first.ctx, first.home.disk, local);
    var second := Exec(first.home, ctx, AddExport(b));
    Rewritten(first.home, ctx, first.ctx, local, ctx.bundle[local][b.name := b]);
  }

  /** What an unchecked context saves for a pier replaces what the file holds. */
  lemma Rewritten(home: Home, ctx: Ctx, other: Ctx, pier: string, services: Services)
    requires Agrees(other, home.disk) && pier in other.bundle && Keyed(services)
    requires ctx.time.None? && other.config == ctx.config && pier in ctx.bundle
    ensures var a := Save(home, ctx.(bundle := ctx.bundle[pier := services]), pier);
      a.outcome == Done && ServicesOn(a.home.disk, pier) == services
  {
    hide ContextServices, ContextConfig, SavedDoc, Agrees;
    var mine := other.(time := None);
    TimeOnly(other, home.disk);
    SaveAgrees(home, mine, pier, services);
    var b := Save(home, mine.(bundle := mine.bundle[pier := services]), pier);
    AgreesKeyed(b.ctx, b.home.disk, pier);
  }

  /** A first write that removes a service loses what another context has added just the same. */
  lemma RemovalCollides(home: Home, a: Service, gone: string)
    requires Open(home.disk).Ok? && a.local && a.name != gone
    requires var ctx := Open(home.disk).value;
      ctx.config.pier in ctx.bundle && a.name !in ctx.bundle[ctx.config.pier] && gone in ctx.bundle[ctx.config.pier]
    ensures var ctx := Open(home.disk).value; var local := ctx.config.pier;
      var first := Exec(home, ctx, AddExport(a));
      var second := Exec(first.home, ctx, DelExport(gone));
      && first.outcome == Done && a.name in ServicesOn(first.home.disk, local)
      && second.outcome == Done && ServicesOn(second.home.disk, local) == ctx.bundle[local] - {gone}
      && a.name !in ServicesOn(second.home.disk, local)
  {
    hide Agrees, ServicesOn, ContextConfig, ContextServices, SavedDoc;
    var ctx := Open(home.disk).value;
    var local := ctx.config.pier;
    OpenAgrees(home.disk);
    AgreesKeyed(ctx, home.disk, local);
    SaveAgrees(home, ctx, local, ctx.bundle[local][a.name := a]);
    var first := Exec(home, ctx, AddExport(a));
    AgreesKeyed(first.ctx, first.home.disk, local);
    Rewritten(first.home, ctx, first.ctx, local, ctx.bundle[local] - {gone});
  }
}
