/**
 The whole supervisor: requests reconcile the pool with the disk while the connectors take their own steps.

 A closure that refers to a connector holds a weak pointer: it does nothing once the connector is gone. A connector
 is identified by its key, its pier and the request that created it.
 */
module Backends {
  import opened Settings
  import opened Connectors
  import opened Controllers
  import opened Handles
  import opened Files
  import opened Engines
  import opened EngineFiles

  datatype Request = All(cmd: Command) | Only(cmd: Command, id: Handle)

  datatype Id = Id(key: string, pier: string, birth: nat)

  /** A request served on some state of the disk, or a step of the connector that `id` refers to. */
  datatype Event = Serve(req: Request, disk: Disk, env: Env) | Act(id: Id, step: Step)

  datatype Backend = Backend(pool: Pool, served: nat)

  const START := Backend(map[], 0)

  function Served(b: Backend, req: Request, disk: Disk, env: Env): Backend {
    match req
    case All(cmd) =>
      var loaded := LoadAll(disk);
      var pool := if loaded.Ok? then Built(cmd, b.pool, loaded.value.1, loaded.value.0, b.served, env) else b.pool;
      Backend(pool, b.served + 1)
    case Only(cmd, id) =>
      var loaded := LoadOne(disk, id);
      var pool :=
        if loaded.Ok? then PoolAfter(cmd, b.pool, id, loaded.value.1, loaded.value.0, b.served, env) else b.pool;
      Backend(pool, b.served + 1)
  }

  /** The weak pointer can be locked. */
  predicate Alive(pool: Pool, id: Id) {
    id.key in pool && id.pier in pool[id.key].bundle && pool[id.key].bundle[id.pier].birth == id.birth
  }

  function Acted(b: Backend, id: Id, step: Step): Backend {
    if !Alive(b.pool, id) || step.Restart? then b
    else
      var e := b.pool[id.key];
      b.(pool := b.pool[id.key := e.(bundle := e.bundle[id.pier := Connectors.Next(e.bundle[id.pier], step)])])
  }

  function Next(b: Backend, ev: Event): Backend {
    match ev
    case Serve(req, disk, env) => Served(b, req, disk, env)
    case Act(id, step) => Acted(b, id, step)
  }

  function Run(b: Backend, evs: seq<Event>): Backend
    decreases |evs|
  {
    if evs == [] then b else Run(Next(b, evs[0]), evs[1..])
  }

  // ---------------------------------------------------------------------------------------------------------
  // Where the connectors of the next pool come from
  // ---------------------------------------------------------------------------------------------------------

  /** `c` is a connector made by request `birth`, or an earlier one of its place, with the carriers it had. */
  predicate Descends(c: Conn, pool: Pool, k: string, pier: string, birth: nat) {
    || (c.birth == birth && c.tunnels == {})
    || (k in pool && pier in pool[k].bundle
       && pool[k].bundle[pier].birth == c.birth && pool[k].bundle[pier].tunnels == c.tunnels)
  }

  predicate AllDescend(next: Pool, pool: Pool, birth: nat) {
    forall k, pier :: k in next && pier in next[k].bundle ==> Descends(next[k].bundle[pier], pool, k, pier, birth)
  }

  lemma StepKeepsBirth(c: Conn, step: Step)
    ensures Connectors.Next(c, step).birth == c.birth
  {
  }

  lemma PerformDescends(act: Engines.Act, b: Bundle, config: Config, service: Service, birth: nat,
                        late: string -> Choice)
    ensures var r := Perform(act, b, config, service, birth, late);
      forall pier :: pier in r ==>
        || (r[pier].birth == birth && r[pier].tunnels == {})
        || (pier in b && r[pier].birth == b[pier].birth && r[pier].tunnels == b[pier].tunnels)
  {
    hide Piers, Restarted;
    forall c: Conn, single: Service, choice: Choice
      ensures Restarted(c, config, single, choice).birth == c.birth
      ensures Restarted(c, config, single, choice).tunnels == c.tunnels
    {
      RestartKeepsCarriers(c, config, single, choice);
    }
  }

  lemma RestartKeepsCarriers(c: Conn, config: Config, service: Service, late: Choice)
    ensures Restarted(c, config, service, late).birth == c.birth
    ensures Restarted(c, config, service, late).tunnels == c.tunnels
  {
  }

  lemma {:induction false} BuiltDescends(cmd: Command, was: Pool, list: Listing, config: Config, birth: nat, env: Env)
    ensures AllDescend(Built(cmd, was, list, config, birth, env), was, birth)
  {
    hide Perform, ActOf, LateFor, State;
    if list != [] {
      var n := |list| - 1;
      var k := Key(list[n].0);
      var b := BaseOf(was, Built(cmd, was, list[..n], config, birth, env), k);
      BuiltDescends(cmd, was, list[..n], config, birth, env);
      var act := ActOf(cmd, k in was, State(b), list[n].1.autostart);
      PerformDescends(act, b, config, list[n].1, birth, LateFor(env, k));
    }
  }

  lemma SingleDescends(cmd: Command, pool: Pool, id: Handle, service: Service, config: Config, birth: nat, env: Env)
    ensures AllDescend(PoolAfter(cmd, pool, id, service, config, birth, env), pool, birth)
  {
    hide Perform, SingleAct, LateFor, State;
    var k := Key(id);
    var b := BundleAt(pool, k);
    PerformDescends(SingleAct(cmd, k in pool, State(b), service.autostart), b, config, service, birth, LateFor(env, k));
  }

  lemma ServedDescends(b: Backend, req: Request, disk: Disk, env: Env)
    ensures AllDescend(Served(b, req, disk, env).pool, b.pool, b.served)
  {
    hide Built, PoolAfter, LoadAll, LoadOne;
    match req
    case All(cmd) =>
      if LoadAll(disk).Ok? { BuiltDescends(cmd, b.pool, LoadAll(disk).value.1, LoadAll(disk).value.0, b.served, env); }
    case Only(cmd, id) =>
      var one := LoadOne(disk, id);
      if one.Ok? { SingleDescends(cmd, b.pool, id, one.value.1, one.value.0, b.served, env); }
  }

  // ---------------------------------------------------------------------------------------------------------
  // Connectors as they should be
  // ---------------------------------------------------------------------------------------------------------

  /**
   A connector that is sound and has been restarted; `counted` adds that an import has the right amount going on.
   */
  predicate Good(c: Conn, served: nat, counted: bool) {
    && Sound(c) && 0 < c.restarts && c.birth < served
    && (counted && !c.service.local ==> 1 <= Tokens(c) <= c.restarts)
  }

  predicate AllGood(pool: Pool, served: nat, counted: bool) {
    forall k, pier :: k in pool && pier in pool[k].bundle ==> Good(pool[k].bundle[pier], served, counted)
  }

  predicate AllLive(pool: Pool) {
    forall k, pier :: k in pool && pier in pool[k].bundle ==> Live(pool[k].bundle[pier])
  }

  predicate BundleGood(b: Bundle, served: nat, counted: bool) {
    forall pier :: pier in b ==> Good(b[pier], served, counted)
  }

  predicate BundleLive(b: Bundle) {
    forall pier :: pier in b ==> Live(b[pier])
  }

  /** The command does not restart a connector of these as one of the other kind. */
  predicate KeepsKind(act: Engines.Act, b: Bundle, service: Service) {
    act.Reboot? ==> forall pier :: pier in b && pier in Piers(service.pier) ==> b[pier].service.local == service.local
  }

  /** The connectors under a key, and those that a turn of a bulk command starts from. */
  function BundleAt(pool: Pool, k: string): Bundle {
    if k in pool then pool[k].bundle else map[]
  }

  function BaseOf(was: Pool, now: Pool, k: string): Bundle {
    if k in now then now[k].bundle else BundleAt(was, k)
  }

  /** The same over all turns of a bulk command. */
  predicate TurnsKeepKind(cmd: Command, was: Pool, list: Listing, config: Config, birth: nat, env: Env) {
    list != [] ==>
      var n := |list| - 1;
      var k, service := Key(list[n].0), list[n].1;
      var b := BaseOf(was, Built(cmd, was, list[..n], config, birth, env), k);
      && TurnsKeepKind(cmd, was, list[..n], config, birth, env)
      && KeepsKind(ActOf(cmd, k in was, State(b), service.autostart), b, service)
  }

  /** Without clashes it is enough to look at the pool that the bulk command starts from. */
  lemma {:induction false} TurnsApart(cmd: Command, was: Pool, list: Listing, config: Config, birth: nat, env: Env)
    requires NoClash(list)
    ensures TurnsKeepKind(cmd, was, list, config, birth, env) <==>
      forall i :: 0 <= i < |list| ==> EntryKeepsKind(cmd, was, list[i])
  {
    hide KeepsKind, State, ActOf, NoClash, Configured, Built;
    if list != [] {
      var n := |list| - 1;
      var front := list[..n];
      FrontNoClash(list);
      TurnsApart(cmd, was, front, config, birth, env);
      BuiltKeys(cmd, was, front, config, birth, env);
      NewKey(list, Built(cmd, was, front, config, birth, env));
    }
  }

  predicate EntryKeepsKind(cmd: Command, was: Pool, e: (Handle, Service)) {
    var b := BundleAt(was, Key(e.0));
    KeepsKind(ActOf(cmd, Key(e.0) in was, State(b), e.1.autostart), b, e.1)
  }

  /** After an unplug no request can change the kind of a connector, for there is none. */
  lemma UnpluggedKeepsKind(cmd: Command, was: Pool, list: Listing, config: Config, birth: nat, env: Env)
    requires NoClash(list) && forall k :: k in was ==> was[k].bundle == map[]
    ensures TurnsKeepKind(cmd, was, list, config, birth, env)
  {
    TurnsApart(cmd, was, list, config, birth, env);
  }

  lemma RestartedIsGood(c: Conn, config: Config, service: Service, birth: nat, late: Choice, counted: bool)
    requires c == Fresh(birth) || (Good(c, birth + 1, counted) && (counted ==> c.service.local == service.local))
    ensures var d := Restarted(c, config, service, late); Good(d, birth + 1, counted) && Live(d)
  {
    hide Restarted;
    RestartEffect(c, config, service, late);
  }

  lemma PerformIsGood(act: Engines.Act, b: Bundle, config: Config, service: Service, birth: nat,
                      late: string -> Choice, counted: bool)
    requires BundleGood(b, birth + 1, counted) && (counted ==> KeepsKind(act, b, service))
    ensures var r := Perform(act, b, config, service, birth, late);
      BundleGood(r, birth + 1, counted) && (BundleLive(b) ==> BundleLive(r))
  {
    hide Restarted, Sound, Live, Tokens, Good, Piers;
    var r := Perform(act, b, config, service, birth, late);
    if act.Reboot? {
      forall pier | pier in r ensures Good(r[pier], birth + 1, counted) && Live(r[pier]) {
        var c := if pier in b then b[pier] else Fresh(birth);
        RestartedIsGood(c, config, service.(pier := pier), birth, late(pier), counted);
      }
    }
  }

  lemma {:induction false} BuiltIsGood(cmd: Command, was: Pool, list: Listing, config: Config, birth: nat, env: Env,
                                       counted: bool)
    requires AllGood(was, birth, counted) && (counted ==> TurnsKeepKind(cmd, was, list, config, birth, env))
    ensures var now := Built(cmd, was, list, config, birth, env);
      AllGood(now, birth + 1, counted) && (AllLive(was) ==> AllLive(now))
  {
    hide Perform, ActOf, LateFor, Sound, Live, Tokens, KeepsKind, State, Good;
    if list != [] {
      var n := |list| - 1;
      var now := Built(cmd, was, list[..n], config, birth, env);
      var k, service := Key(list[n].0), list[n].1;
      var b := BaseOf(was, now, k);
      BuiltIsGood(cmd, was, list[..n], config, birth, env, counted);
      BaseIsGood(was, now, k, birth, counted);
      var act := ActOf(cmd, k in was, State(b), service.autostart);
      PerformIsGood(act, b, config, service, birth, LateFor(env, k), counted);
    }
  }

  lemma BaseIsGood(was: Pool, now: Pool, k: string, birth: nat, counted: bool)
    requires AllGood(was, birth, counted) && AllGood(now, birth + 1, counted) && (AllLive(was) ==> AllLive(now))
    ensures BundleGood(BaseOf(was, now, k), birth + 1, counted) && (AllLive(was) ==> BundleLive(BaseOf(was, now, k)))
  {
    hide Sound, Live, Tokens;
  }

  lemma SingleIsGood(cmd: Command, pool: Pool, id: Handle, service: Service, config: Config, birth: nat, env: Env,
                     counted: bool)
    requires AllGood(pool, birth, counted)
    requires counted && service.name != "" ==>
      var b := BundleAt(pool, Key(id));
      KeepsKind(SingleAct(cmd, Key(id) in pool, State(b), service.autostart), b, service)
    ensures var now := PoolAfter(cmd, pool, id, service, config, birth, env);
      AllGood(now, birth + 1, counted) && (AllLive(pool) ==> AllLive(now))
  {
    hide Perform, SingleAct, LateFor, Sound, Live, Tokens, KeepsKind, State;
    var k := Key(id);
    var b := BundleAt(pool, k);
    if service.name != "" {
      assert BundleGood(b, birth + 1, counted) && (AllLive(pool) ==> BundleLive(b));
      var act := SingleAct(cmd, k in pool, State(b), service.autostart);
      PerformIsGood(act, b, config, service, birth, LateFor(env, k), counted);
    }
  }

  // ---------------------------------------------------------------------------------------------------------
  // Whole runs
  // ---------------------------------------------------------------------------------------------------------

  /** No restart in the event makes an import of an export or an export of an import. */
  predicate EventKeepsKind(b: Backend, ev: Event) {
    match ev
    case Act(_, _) => true
    case Serve(All(cmd), disk, env) =>
      var all := LoadAll(disk);
      all.Ok? ==> TurnsKeepKind(cmd, b.pool, all.value.1, all.value.0, b.served, env)
    case Serve(Only(cmd, id), disk, _) =>
      var one := LoadOne(disk, id);
      var base := BundleAt(b.pool, Key(id));
      one.Ok? && one.value.1.name != "" ==>
        KeepsKind(SingleAct(cmd, Key(id) in b.pool, State(base), one.value.1.autostart), base, one.value.1)
  }

  predicate RunKeepsKind(b: Backend, evs: seq<Event>)
    decreases |evs|
  {
    evs != [] ==> EventKeepsKind(b, evs[0]) && RunKeepsKind(Next(b, evs[0]), evs[1..])
  }

  /** The event is the one step that strands an export (see Connectors.Strands). */
  predicate StrandsAt(b: Backend, ev: Event) {
    ev.Act? && Alive(b.pool, ev.id) && Strands(b.pool[ev.id.key].bundle[ev.id.pier], ev.step)
  }

  predicate Stranding(b: Backend, evs: seq<Event>)
    decreases |evs|
  {
    evs != [] && (StrandsAt(b, evs[0]) || Stranding(Next(b, evs[0]), evs[1..]))
  }

  lemma NextIsGood(b: Backend, ev: Event, counted: bool)
    requires AllGood(b.pool, b.served, counted) && (counted ==> EventKeepsKind(b, ev))
    ensures var d := Next(b, ev);
      AllGood(d.pool, d.served, counted) && (AllLive(b.pool) && !StrandsAt(b, ev) ==> AllLive(d.pool))
  {
    hide Sound, Live, Tokens, Strands, Built, PoolAfter, Connectors.Next, LoadAll, LoadOne, TurnsKeepKind, KeepsKind;
    match ev
    case Serve(All(cmd), disk, env) =>
      var all := LoadAll(disk);
      if all.Ok? { BuiltIsGood(cmd, b.pool, all.value.1, all.value.0, b.served, env, counted); }
    case Serve(Only(cmd, id), disk, env) =>
      var one := LoadOne(disk, id);
      if one.Ok? { SingleIsGood(cmd, b.pool, id, one.value.1, one.value.0, b.served, env, counted); }
    case Act(id, step) =>
      if Alive(b.pool, id) && !step.Restart? { ConnIsGood(b.pool[id.key].bundle[id.pier], step, b.served, counted); }
  }

  lemma ConnIsGood(c: Conn, step: Step, served: nat, counted: bool)
    requires Good(c, served, counted) && !step.Restart?
    ensures var d := Connectors.Next(c, step);
      Good(d, served, counted) && (Live(c) && !Strands(c, step) ==> Live(d))
  {
    hide Connectors.Next;
    SoundStep(c, step);
    StepFields(c, step);
    if !c.service.local { TokensStep(c, step); }
    if Live(c) { LiveStep(c, step); }
  }

  /**
   In every reachable state of the supervisor, whatever requests were served on whatever files: every connector is
   sound, and live unless the stranding step was taken. As long as no restart has changed an export into an import or
   back, every import has between one and `restarts` things going on.
   */
  lemma ReachableIsGood(evs: seq<Event>)
    ensures var b := Run(START, evs);
      && Engines.Valid(b.pool) && AllGood(b.pool, b.served, false)
      && (!Stranding(START, evs) ==> AllLive(b.pool))
      && (RunKeepsKind(START, evs) ==> AllGood(b.pool, b.served, true))
  {
    hide Run, Good, Stranding, RunKeepsKind;
    RunIsGood(START, evs, false);
    if RunKeepsKind(START, evs) { RunIsGood(START, evs, true); }
    RunIsValid(START, evs);
  }

  lemma NextIsValid(b: Backend, ev: Event)
    requires Engines.Valid(b.pool)
    ensures Engines.Valid(Next(b, ev).pool)
  {
    hide Built, PoolAfter, LoadAll, LoadOne, Connectors.Next;
    match ev
    case Serve(All(cmd), disk, env) =>
      if LoadAll(disk).Ok? { BuiltKeys(cmd, b.pool, LoadAll(disk).value.1, LoadAll(disk).value.0, b.served, env); }
    case Serve(Only(cmd, id), disk, env) =>
      var one := LoadOne(disk, id);
      if one.Ok? { SingleIsLocal(cmd, b.pool, id, one.value.1, one.value.0, b.served, env); }
    case Act(_, _) =>
  }

  lemma {:induction false} RunIsValid(b: Backend, evs: seq<Event>)
    requires Engines.Valid(b.pool)
    ensures Engines.Valid(Run(b, evs).pool)
    decreases |evs|
  {
    hide Next, Engines.Valid;
    if evs != [] {
      NextIsValid(b, evs[0]);
      RunIsValid(Next(b, evs[0]), evs[1..]);
    }
  }

  lemma {:induction false} RunIsGood(b: Backend, evs: seq<Event>, counted: bool)
    requires AllGood(b.pool, b.served, counted) && (counted ==> RunKeepsKind(b, evs))
    ensures var d := Run(b, evs);
      AllGood(d.pool, d.served, counted) && (AllLive(b.pool) && !Stranding(b, evs) ==> AllLive(d.pool))
    decreases |evs|
  {
    hide Good, Next, EventKeepsKind, StrandsAt, AllLive, AllGood;
    if evs != [] {
      NextIsGood(b, evs[0], counted);
      RunIsGood(Next(b, evs[0]), evs[1..], counted);
    }
  }

  // ---------------------------------------------------------------------------------------------------------
  // Dropped connectors
  // ---------------------------------------------------------------------------------------------------------

  /** `evs` without the steps of one connector. */
  function Without(evs: seq<Event>, id: Id): seq<Event> {
    if evs == [] then []
    else (if evs[0].Act? && evs[0].id == id then [] else [evs[0]]) + Without(evs[1..], id)
  }

  lemma DeadStays(b: Backend, ev: Event, id: Id)
    requires id.birth < b.served && !Alive(b.pool, id)
    ensures !Alive(Next(b, ev).pool, id) && b.served <= Next(b, ev).served
    ensures ev.Act? && ev.id == id ==> Next(b, ev) == b
  {
    hide Built, PoolAfter, LoadAll, LoadOne, Connectors.Next;
    match ev
    case Serve(req, disk, env) => ServedDescends(b, req, disk, env);
    case Act(other, step) => if Alive(b.pool, other) { StepKeepsBirth(b.pool[other.key].bundle[other.pier], step); }
  }

  /**
   Dropped work is inert: once a connector is gone it is gone for good, and no closure that still refers to it,
   whenever it runs, makes any difference to the supervisor, whatever requests it serves on whatever files.
   */
  lemma {:induction false} DroppedIsInert(b: Backend, evs: seq<Event>, id: Id)
    requires id.birth < b.served && !Alive(b.pool, id)
    ensures !Alive(Run(b, evs).pool, id)
    ensures Run(b, Without(evs, id)) == Run(b, evs)
    decreases |evs|
  {
    hide Alive, Next;
    if evs != [] {
      var ev, rest := evs[0], evs[1..];
      DeadStays(b, ev, id);
      DroppedIsInert(Next(b, ev), rest, id);
      if ev.Act? && ev.id == id {
        assert [] + Without(rest, id) == Without(rest, id);
      } else {
        assert ([ev] + Without(rest, id))[1..] == Without(rest, id);
      }
    }
  }

  /** A step of a connector that is alive is taken. */
  lemma ActMoves(b: Backend, id: Id, step: Step)
    requires Alive(b.pool, id) && !step.Restart?
    ensures var d := Acted(b, id, step);
      Alive(d.pool, id) && d.pool[id.key].bundle[id.pier] == Connectors.Next(b.pool[id.key].bundle[id.pier], step)
  {
    hide Connectors.Next;
    StepKeepsBirth(b.pool[id.key].bundle[id.pier], step);
  }

  /** A step of one connector changes no other, in its service or elsewhere. */
  lemma ActIsLocal(b: Backend, id: Id, step: Step, k: string, pier: string)
    requires (k, pier) != (id.key, id.pier)
    ensures var d := Acted(b, id, step);
      && d.served == b.served
      && (k in d.pool <==> k in b.pool)
      && (k in d.pool ==> d.pool[k].handle == b.pool[k].handle)
      && (k in d.pool ==> (pier in d.pool[k].bundle <==> pier in b.pool[k].bundle))
      && (k in d.pool && pier in d.pool[k].bundle ==> d.pool[k].bundle[pier] == b.pool[k].bundle[pier])
  {
    hide Connectors.Next;
  }

  // ---------------------------------------------------------------------------------------------------------
  // The pool against the disk
  // ---------------------------------------------------------------------------------------------------------

  /** The pool holds exactly the services that the disk configures. */
  ghost predicate Follows(pool: Pool, d: Disk)
    requires WrittenHome(d)
  {
    forall h: Handle :: Pooled(pool, h) <==> ConfiguredOn(d, h)
  }

  /** Whatever the pool was, a bulk request makes it follow the disk, if and only if the disk is unambiguous. */
  lemma BulkFollows(b: Backend, cmd: Command, d: Disk, env: Env)
    requires WrittenHome(d)
    ensures Follows(Served(b, All(cmd), d, env).pool, d) <==> UnambiguousOn(d)
  {
    hide Built, LoadAll, ConfiguredOn, WrittenHome;
    ListingIsClean(d);
    var list := LoadAll(d).value.1;
    BulkKeys(cmd, b.pool, list, LoadAll(d).value.0, b.served, env);
    forall h ensures Configured(list, h) <==> ConfiguredOn(d, h) { ConfiguredMeans(d, h); }
  }

  /** A request for one handle that follows an edit of that handle alone makes the pool follow the edited disk. */
  lemma SingleFollows(b: Backend, cmd: Command, before: Disk, after: Disk, id: Handle, env: Env)
    requires WrittenHome(before) && WrittenHome(after) && Engines.Valid(b.pool)
    requires Follows(b.pool, before) && !cmd.Unplug? && NamedOn(after)
    requires forall h: Handle :: h != id ==> (ConfiguredOn(before, h) <==> ConfiguredOn(after, h))
    requires forall h: Handle :: ConfiguredOn(before, h) || ConfiguredOn(after, h) ==> h == id || Key(h) != Key(id)
    ensures Follows(Served(b, Only(cmd, id), after, env).pool, after)
  {
    hide LoadOne, ConfiguredOn, WrittenHome, PoolAfter;
    LoadOneMeans(after, id);
    var now := Served(b, Only(cmd, id), after, env).pool;
    SingleIsLocal(cmd, b.pool, id, LoadOne(after, id).value.1, LoadOne(after, id).value.0, b.served, env);
    if Key(id) in b.pool {
      assert Pooled(b.pool, b.pool[Key(id)].handle);
    }
    forall h ensures Pooled(now, h) <==> ConfiguredOn(after, h) {
      if Key(h) == Key(id) && h != id { assert !ConfiguredOn(after, h); }
    }
  }

  /** adjust(id) for one handle after the other, each loading its service from the disk. */
  function AdjustedEach(pool: Pool, order: seq<Handle>, d: Disk, birth: nat, env: Env): Pool {
    if order == [] then pool else
      var last := order[|order| - 1];
      var front := AdjustedEach(pool, order[..|order| - 1], d, birth, env);
      var loaded := LoadOne(d, last);
      if loaded.Err? then front else PoolAfter(Adjust, front, last, loaded.value.1, loaded.value.0, birth, env)
  }

  lemma {:induction false} EachLoads(pool: Pool, order: seq<Handle>, d: Disk, birth: nat, env: Env)
    requires WrittenHome(d)
    ensures LoadAll(d).Ok?
    ensures var all := LoadAll(d).value;
      AdjustedEach(pool, order, d, birth, env) == AdjustEach(pool, order, all.1, all.0, birth, env)
  {
    hide WrittenHome, LoadAll, LoadOne, PoolAfter, Find, LoadConfig;
    LoadersAgree(d);
    if order != [] { EachLoads(pool, order[..|order| - 1], d, birth, env); }
  }

  /**
   With the two loaders in between: on an unambiguous home that the store has written, the bulk adjust leaves the
   pool that the single adjusts of all pooled and configured handles leave, in any order.
   */
  lemma BulkAdjustIsSingles(pool: Pool, order: seq<Handle>, d: Disk, birth: nat, env: Env)
    requires WrittenHome(d) && NamedOn(d) && UnambiguousOn(d)
    requires Engines.Valid(pool) && DistinctKeys(order)
    requires forall k :: k in pool ==> pool[k].handle in order
    requires forall h: Handle :: ConfiguredOn(d, h) ==> h in order
    ensures LoadAll(d).Ok?
    ensures var all := LoadAll(d).value;
      AdjustedEach(pool, order, d, birth, env) == Built(Adjust, pool, all.1, all.0, birth, env)
  {
    hide WrittenHome, LoadAll, LoadOne, ConfiguredOn, Built, AdjustedEach, AdjustEach, NamedOn, UnambiguousOn;
    hide NoClash, DistinctKeys, NamesAreSet, Engines.Valid;
    ListingIsClean(d);
    EachLoads(pool, order, d, birth, env);
    var list := LoadAll(d).value.1;
    forall i | 0 <= i < |list| ensures list[i].0 in order {
      ConfiguredMeans(d, list[i].0);
      assert Configured(list, list[i].0);
    }
    BulkIsSingles(pool, order, list, LoadAll(d).value.0, birth, env);
  }

  // ---------------------------------------------------------------------------------------------------------
  // Carriers and waking, from disk to pool
  // ---------------------------------------------------------------------------------------------------------

  /** A pooled service and a configured one with the same concatenation are the same. */
  ghost predicate Matches(pool: Pool, d: Disk)
    requires WrittenHome(d)
  {
    forall g: Handle, h: Handle :: Pooled(pool, g) && ConfiguredOn(d, h) && Key(g) == Key(h) ==> g == h
  }

  function ServiceOn(d: Disk, h: Handle): Service
    requires WrittenHome(d) && ConfiguredOn(d, h)
  {
    ServicesOf(Repository(d)[h.pier])[h.service]
  }

  lemma EntryOf(d: Disk, h: Handle) returns (i: nat)
    requires WrittenHome(d) && ConfiguredOn(d, h)
    ensures LoadAll(d).Ok? && i < |LoadAll(d).value.1| && LoadAll(d).value.1[i] == (h, ServiceOn(d, h))
  {
    hide LoadAll, LoadOne, LoadConfig;
    LoadersAgree(d);
    var list := LoadAll(d).value.1;
    assert Holds(Repository(d), h, ServiceOn(d, h));
    assert (h, ServiceOn(d, h)) in list;
    i :| 0 <= i < |list| && list[i] == (h, ServiceOn(d, h));
  }

  lemma MatchesCompatible(pool: Pool, d: Disk)
    requires WrittenHome(d) && Engines.Valid(pool) && Matches(pool, d)
    ensures LoadAll(d).Ok? && Compatible(pool, LoadAll(d).value.1)
  {
    hide LoadAll, LoadOne, LoadConfig, WrittenHome, ConfiguredOn;
    ListingIsClean(d);
    var list := LoadAll(d).value.1;
    forall k, i | k in pool && 0 <= i < |list| && Key(list[i].0) == k ensures pool[k].handle == list[i].0 {
      ConfiguredMeans(d, list[i].0);
      assert Configured(list, list[i].0) && Pooled(pool, pool[k].handle);
    }
  }

  lemma CompatibleMatches(pool: Pool, d: Disk)
    requires WrittenHome(d) && LoadAll(d).Ok? && Compatible(pool, LoadAll(d).value.1)
    ensures Matches(pool, d)
  {
    hide LoadAll, LoadOne, LoadConfig, WrittenHome, ConfiguredOn;
    var list := LoadAll(d).value.1;
    forall g: Handle, h: Handle | Pooled(pool, g) && ConfiguredOn(d, h) && Key(g) == Key(h) ensures g == h {
      ConfiguredMeans(d, h);
      var i :| 0 <= i < |list| && list[i].0 == h;
      assert pool[Key(h)].handle == list[i].0;
    }
  }

  /** Every pooled and every configured handle once, and no other. */
  ghost predicate EnumeratesOn(order: seq<Handle>, pool: Pool, d: Disk)
    requires WrittenHome(d)
  {
    && (forall i, j :: 0 <= i < j < |order| ==> order[i] != order[j])
    && (forall h: Handle :: h in order <==> Pooled(pool, h) || ConfiguredOn(d, h))
  }

  lemma EnumeratesMeans(order: seq<Handle>, pool: Pool, d: Disk)
    requires WrittenHome(d) && Engines.Valid(pool)
    ensures LoadAll(d).Ok? && (EnumeratesOn(order, pool, d) <==> Enumerates(order, pool, LoadAll(d).value.1))
  {
    hide LoadAll, LoadOne, LoadConfig, WrittenHome, ConfiguredOn, NoClash, UnambiguousOn;
    ListingIsClean(d);
    var list := LoadAll(d).value.1;
    forall h ensures Configured(list, h) <==> ConfiguredOn(d, h) { ConfiguredMeans(d, h); }
    assert forall k :: k in pool ==> Pooled(pool, pool[k].handle);
    assert forall i :: 0 <= i < |list| ==> Configured(list, list[i].0);
  }

  /**
   Exactly when, on an unambiguous home that the store has written: the single adjusts of all pooled and configured
   handles leave the pool of the bulk adjust in every order if and only if no stale handle of the pool has the key of
   another, configured one.
   */
  lemma BulkAdjustIsSinglesExactly(pool: Pool, d: Disk, birth: nat, env: Env)
    requires WrittenHome(d) && NamedOn(d) && UnambiguousOn(d) && Engines.Valid(pool)
    ensures LoadAll(d).Ok?
    ensures Matches(pool, d) <==>
      forall order :: EnumeratesOn(order, pool, d) ==>
        AdjustedEach(pool, order, d, birth, env)
        == Built(Adjust, pool, LoadAll(d).value.1, LoadAll(d).value.0, birth, env)
  {
    hide WrittenHome, LoadAll, LoadOne, LoadConfig, Built, AdjustedEach, AdjustEach, NamedOn, UnambiguousOn, NoClash;
    hide NamesAreSet, Engines.Valid, Matches, Compatible, EnumeratesOn, Enumerates;
    ListingIsClean(d);
    var list, config := LoadAll(d).value.1, LoadAll(d).value.0;
    if Matches(pool, d) { MatchesCompatible(pool, d); }
    if Compatible(pool, list) { CompatibleMatches(pool, d); }
    SinglesExactly(pool, list, config, birth, env);
    forall order
      ensures EnumeratesOn(order, pool, d) <==> Enumerates(order, pool, list)
      ensures AdjustedEach(pool, order, d, birth, env) == AdjustEach(pool, order, list, config, birth, env)
    {
      EnumeratesMeans(order, pool, d);
      EachLoads(pool, order, d, birth, env);
    }
  }

  lemma ReachableIsSound(evs: seq<Event>)
    ensures Engines.Valid(Run(START, evs).pool) && AllSound(Run(START, evs).pool)
  {
    hide Sound, Tokens, Run, Stranding, AllLive, RunKeepsKind;
    ReachableIsGood(evs);
    var b := Run(START, evs);
    assert forall k, pier :: k in b.pool && pier in b.pool[k].bundle ==> Good(b.pool[k].bundle[pier], b.served, false);
  }

  /**
   In every reachable state: alive after a bulk request are exactly the earlier carriers of services that are still
   configured and not to be stopped, for piers that are still on the service's list.
   */
  lemma ServedConservesCarriers(evs: seq<Event>, cmd: Command, d: Disk, env: Env, h: Handle, pier: string, pid: nat)
    requires WrittenHome(d) && UnambiguousOn(d) && Matches(Run(START, evs).pool, d)
    ensures var b := Run(START, evs);
      Carrier(Served(b, All(cmd), d, env).pool, h, pier, pid) <==>
        && Carrier(b.pool, h, pier, pid)
        && ConfiguredOn(d, h) && Continues(cmd, ServiceOn(d, h)) && pier in Piers(ServiceOn(d, h).pier)
  {
    hide Built, LoadAll, LoadOne, LoadConfig, WrittenHome, ConfiguredOn, UnambiguousOn, Matches, AllSound, Run, Carrier;
    hide Engines.Valid, NoClash, Compatible, ServiceOn, Continues, Piers;
    var b := Run(START, evs);
    ReachableIsSound(evs);
    ListingIsClean(d);
    MatchesCompatible(b.pool, d);
    var list := LoadAll(d).value.1;
    BulkConservesCarriers(cmd, b.pool, list, LoadAll(d).value.0, b.served, env, h, pier, pid);
    ConfiguredMeans(d, h);
    if ConfiguredOn(d, h) {
      var i := EntryOf(d, h);
      forall j | 0 <= j < |list| && list[j].0 == h ensures list[j].1 == ServiceOn(d, h) { SameEntry(d, i, j); }
    }
  }

  lemma SameEntry(d: Disk, i: nat, j: nat)
    requires WrittenHome(d) && LoadAll(d).Ok? && i < |LoadAll(d).value.1| && j < |LoadAll(d).value.1|
    requires LoadAll(d).value.1[i].0 == LoadAll(d).value.1[j].0
    ensures LoadAll(d).value.1[i].1 == LoadAll(d).value.1[j].1
  {
    hide LoadAll, LoadOne, LoadConfig, WrittenHome;
    LoadersAgree(d);
  }

  /**
   In every reachable state: after engage awake means autostart; after adjust known services keep their state and new
   ones follow autostart; after unplug all sleep.
   */
  lemma ServedAwake(evs: seq<Event>, cmd: Command, d: Disk, env: Env, h: Handle)
    requires WrittenHome(d) && UnambiguousOn(d) && Matches(Run(START, evs).pool, d) && ConfiguredOn(d, h)
    ensures var b := Run(START, evs);
      Awake(Served(b, All(cmd), d, env).pool, h) <==>
        match cmd
        case Unplug => false
        case Engage => ServiceOn(d, h).autostart
        case Adjust => if Pooled(b.pool, h) then Awake(b.pool, h) else ServiceOn(d, h).autostart
  {
    hide Built, LoadAll, LoadOne, LoadConfig, WrittenHome, ConfiguredOn, UnambiguousOn, Matches, Run, Awake;
    hide Engines.Valid, NoClash, Compatible, Pooled, ServiceOn;
    var b := Run(START, evs);
    assert Engines.Valid(START.pool) by { NothingIsValid(); }
    RunIsValid(START, evs);
    ListingIsClean(d);
    MatchesCompatible(b.pool, d);
    var i := EntryOf(d, h);
    BulkAwake(cmd, b.pool, LoadAll(d).value.1, LoadAll(d).value.0, b.served, env, i);
  }

  lemma NothingIsValid()
    ensures Engines.Valid(START.pool)
  {
  }

  lemma LoadOneIs(d: Disk, id: Handle)
    requires WrittenHome(d) && NamedOn(d)
    ensures LoadOne(d, id).Ok?
    ensures if ConfiguredOn(d, id) then LoadOne(d, id).value.1 == ServiceOn(d, id) && ServiceOn(d, id).name != ""
      else LoadOne(d, id).value.1.name == ""
  {
    hide EngineService, EngineConfig;
    var repo := Repository(d);
    if id.pier in repo {
      WrittenDirLoads(repo[id.pier]);
      assert WrittenDir(repo[id.pier]);
    }
  }

  /**
   In every reachable state, after a request for one service: a service that is not configured is dropped; engage
   wakes one that is, unplug puts it to sleep, adjust keeps a known one as it is and has a new one follow autostart;
   its carriers go on for the piers still listed, but for unplug.
   */
  lemma ServedOwn(evs: seq<Event>, cmd: Command, d: Disk, env: Env, id: Handle, pier: string, pid: nat)
    requires WrittenHome(d) && NamedOn(d)
    requires var pool := Run(START, evs).pool; Key(id) in pool ==> pool[Key(id)].handle == id
    ensures var b := Run(START, evs); var now := Served(b, Only(cmd, id), d, env).pool;
      if !ConfiguredOn(d, id) then Key(id) !in now
      else
        && (Awake(now, id) <==> match cmd
              case Unplug => false
              case Engage => true
              case Adjust => if Pooled(b.pool, id) then Awake(b.pool, id) else ServiceOn(d, id).autostart)
        && (Carrier(now, id, pier, pid) <==>
             Carrier(b.pool, id, pier, pid) && !cmd.Unplug? && pier in Piers(ServiceOn(d, id).pier))
  {
    hide PoolAfter, LoadOne, WrittenHome, ConfiguredOn, NamedOn, Run, Awake, Carrier, Engines.Valid, Pooled, ServiceOn;
    hide Piers, AllSound;
    var b := Run(START, evs);
    ReachableIsSound(evs);
    LoadOneIs(d, id);
    var one := LoadOne(d, id).value;
    if ConfiguredOn(d, id) {
      SingleOwn(cmd, b.pool, id, one.1, one.0, b.served, env, pier, pid);
    } else {
      SingleIsLocal(cmd, b.pool, id, one.1, one.0, b.served, env);
    }
  }

  // ---------------------------------------------------------------------------------------------------------
  // What a request restarts, and with what
  // ---------------------------------------------------------------------------------------------------------

  /**
   In every reachable state a bulk request restarts a configured service or leaves it without connectors: engage
   restarts it if it starts by itself, adjust if it is awake or new and starts by itself, unplug never. A restarted
   service has a connector for each pier of its file entry, with the configuration and the entry that are on disk.
   */
  lemma ServedEquips(evs: seq<Event>, cmd: Command, d: Disk, env: Env, h: Handle)
    requires WrittenHome(d) && UnambiguousOn(d) && Matches(Run(START, evs).pool, d) && ConfiguredOn(d, h)
    ensures var b := Run(START, evs);
      var now := Served(b, All(cmd), d, env).pool;
      var restarted := match cmd
        case Unplug => false
        case Engage => ServiceOn(d, h).autostart
        case Adjust => if Pooled(b.pool, h) then Awake(b.pool, h) else ServiceOn(d, h).autostart;
      && Pooled(now, h)
      && var config := LoadConfig(d).value;
         Equipped(now[Key(h)].bundle, restarted, BundleAt(b.pool, Key(h)), config, ServiceOn(d, h), b.served)
  {
    hide Served, LoadConfig, WrittenHome, ConfiguredOn, UnambiguousOn, Matches, Run, Awake, BundleAt;
    hide Engines.Valid, Pooled, ServiceOn, AllSound, Equipped;
    ReachableIsSound(evs);
    SoundEquips(Run(START, evs), cmd, d, env, h);
  }

  lemma SoundEquips(b: Backend, cmd: Command, d: Disk, env: Env, h: Handle)
    requires Engines.Valid(b.pool) && AllSound(b.pool)
    requires WrittenHome(d) && UnambiguousOn(d) && Matches(b.pool, d) && ConfiguredOn(d, h)
    ensures var now := Served(b, All(cmd), d, env).pool;
      var restarted := match cmd
        case Unplug => false
        case Engage => ServiceOn(d, h).autostart
        case Adjust => if Pooled(b.pool, h) then Awake(b.pool, h) else ServiceOn(d, h).autostart;
      && Pooled(now, h)
      && var config := LoadConfig(d).value;
         Equipped(now[Key(h)].bundle, restarted, BundleAt(b.pool, Key(h)), config, ServiceOn(d, h), b.served)
  {
    hide Built, LoadAll, LoadOne, LoadConfig, WrittenHome, ConfiguredOn, UnambiguousOn, Matches, Awake;
    hide Engines.Valid, NoClash, Compatible, Pooled, ServiceOn, AllSound, Equipped;
    ListingIsClean(d);
    LoadedConfig(d);
    MatchesCompatible(b.pool, d);
    var i := EntryOf(d, h);
    BulkEquips(cmd, b.pool, LoadAll(d).value.1, LoadAll(d).value.0, b.served, env, i);
  }

  lemma LoadedConfig(d: Disk)
    requires WrittenHome(d)
    ensures LoadAll(d).Ok? && LoadAll(d).value.0 == LoadConfig(d).value
    ensures forall id :: LoadOne(d, id).Ok? && LoadOne(d, id).value.0 == LoadConfig(d).value
  {
    hide LoadAll, LoadOne, LoadConfig, WrittenHome;
    LoadersAgree(d);
  }

  /** A request for one service does the same to it, with engage restarting it in any case, and nothing to others. */
  lemma ServedOwnEquips(evs: seq<Event>, cmd: Command, d: Disk, env: Env, id: Handle)
    requires WrittenHome(d) && NamedOn(d) && ConfiguredOn(d, id)
    requires var pool := Run(START, evs).pool; Key(id) in pool ==> pool[Key(id)].handle == id
    ensures var b := Run(START, evs);
      var now := Served(b, Only(cmd, id), d, env).pool;
      var restarted := match cmd
        case Unplug => false
        case Engage => true
        case Adjust => if Pooled(b.pool, id) then Awake(b.pool, id) else ServiceOn(d, id).autostart;
      && (Pooled(now, id) <==> Pooled(b.pool, id) || !cmd.Unplug?)
      && (Pooled(now, id) ==>
           var config := LoadConfig(d).value;
           Equipped(now[Key(id)].bundle, restarted, BundleAt(b.pool, Key(id)), config, ServiceOn(d, id), b.served))
      && (forall k :: k != Key(id) ==> (k in now <==> k in b.pool) && (k in now ==> now[k] == b.pool[k]))
  {
    hide PoolAfter, LoadOne, WrittenHome, ConfiguredOn, NamedOn, Run, Awake, Engines.Valid, Pooled, ServiceOn, Equipped;
    hide AllSound, LoadConfig;
    var b := Run(START, evs);
    ReachableIsSound(evs);
    LoadOneIs(d, id);
    LoadedConfig(d);
    var one := LoadOne(d, id).value;
    SingleEquips(cmd, b.pool, id, one.1, one.0, b.served, env);
    SingleIsLocal(cmd, b.pool, id, one.1, one.0, b.served, env);
  }

  /** Whatever was in the pool, after a bulk request every connector has the configuration of the disk. */
  lemma ServedConfigures(evs: seq<Event>, cmd: Command, d: Disk, env: Env, k: string, pier: string)
    requires LoadAll(d).Ok?
    ensures var now := Served(Run(START, evs), All(cmd), d, env).pool;
      k in now && pier in now[k].bundle ==> now[k].bundle[pier].config == LoadConfig(d).value
  {
    hide Served, Run, AllSound, Engines.Valid, LoadAll, LoadConfig;
    ReachableIsSound(evs);
    SoundConfigures(Run(START, evs), cmd, d, env, k, pier);
  }

  lemma SoundConfigures(b: Backend, cmd: Command, d: Disk, env: Env, k: string, pier: string)
    requires AllSound(b.pool) && LoadAll(d).Ok?
    ensures var now := Served(b, All(cmd), d, env).pool;
      k in now && pier in now[k].bundle ==>
        Sound(now[k].bundle[pier]) && now[k].bundle[pier].config == LoadConfig(d).value
  {
    hide Built, AllSound, ListingOf;
    BulkConfigures(cmd, b.pool, LoadAll(d).value.1, LoadAll(d).value.0, b.served, env, k, pier);
  }

  /** An unplug leaves no connectors at all. */
  lemma UnplugEmpties(b: Backend, d: Disk, env: Env, k: string)
    requires LoadAll(d).Ok?
    ensures var now := Served(b, All(Unplug), d, env).pool; k in now ==> now[k].bundle == map[]
  {
    hide Built, ListingOf;
    AllUnplugged(b.pool, LoadAll(d).value.1, LoadAll(d).value.0, b.served, env, k);
  }

  /** A request whose files cannot be loaded leaves the pool alone. */
  lemma UnloadedIsIgnored(b: Backend, cmd: Command, d: Disk, env: Env)
    ensures LoadAll(d).Err? ==> Served(b, All(cmd), d, env).pool == b.pool
    ensures forall id :: LoadOne(d, id).Err? ==> Served(b, Only(cmd, id), d, env).pool == b.pool
    ensures d.conf.None? ==> LoadAll(d).Err? && forall id :: LoadOne(d, id).Err?
  {
    hide ListingOf, EngineService, Built, PoolAfter;
  }
}
