/**
 The file lock of a home, one file access at a time. A call of a context makes several accesses while it holds the
 lock; the engine, and a context that is being opened, read several files while they hold it; accesses by different
 holders never mix. The contexts are those of module Worlds, whatever they have missed.
 */
module Snapshots {
  import opened Text
  import opened Settings
  import opened Order
  import opened Handles
  import opened Files
  import opened Engines
  import opened EngineFiles
  import opened Store
  import opened Faithfulness
  import opened Worlds

  // ---------------------------------------------------------------------------------------------------------
  // The accesses of a call
  // ---------------------------------------------------------------------------------------------------------

  /** One access that changes the disk. */
  datatype Write =
    | PutConf(doc: Doc)
    | MakeRepo(repo: string)
    | PutDir(repo: string, id: string, dir: PierDir)
    | DropDir(repo: string, id: string)

  function Apply(d: Disk, w: Write): Disk {
    match w
    case PutConf(doc) => d.(conf := Some(doc))
    case MakeRepo(repo) => if repo == "" then d else d.(repos := d.repos[repo := RepoOf(d, repo)])
    case PutDir(repo, id, dir) => WithDir(d, repo, id, dir)
    case DropDir(repo, id) => WithoutDir(d, repo, id)
  }

  function ApplyAll(d: Disk, todo: seq<Write>): Disk
    decreases |todo|
  {
    if todo == [] then d else ApplyAll(Apply(d, todo[0]), todo[1..])
  }

  /** What a context with configuration and index `ctx` writes once it has the lock, in the order of the source. */
  function Accesses(d: Disk, ctx: Ctx, op: Op): seq<Write> {
    var repo := ctx.config.repo;
    match op
    case SetConfig(info, minted, _) =>
      if info.pier == ctx.config.pier then [PutConf(ConfigDoc(info))]
      else if info.repo == "" then []
      else
        var dir := DirOf(d, info.repo, info.pier);
        [MakeRepo(info.repo)]
        + (if dir.cert.None? && !dir.key then
             [PutDir(info.repo, info.pier, dir), PutDir(info.repo, info.pier, dir.(cert := Some(minted))),
              PutDir(info.repo, info.pier, dir.(cert := Some(minted), key := true))]
           else [])
        + [PutConf(ConfigDoc(info))]
    case AddPier(pier, cert) =>
      if pier in RepoOf(d, repo) then []
      else
        var bare := PierDir(None, false, None);
        [MakeRepo(repo), PutDir(repo, pier, bare), PutDir(repo, pier, bare.(cert := Some(cert)))]
    case DelPier(pier) =>
      var dir := DirOf(d, repo, pier);
      if pier !in RepoOf(d, repo) then []
      else [PutDir(repo, pier, dir.(conf := None)), PutDir(repo, pier, dir.(conf := None, key := false)),
            PutDir(repo, pier, PierDir(None, false, None)), DropDir(repo, pier)]
    case ReadCert(_) => []
    case _ =>
      var id := PierOf(op, ctx.config.pier);
      if id !in ctx.bundle || id !in RepoOf(d, repo) then []
      else [PutDir(repo, id, RepoOf(d, repo)[id].(conf := Some(SavedDoc(Edited(op, ctx.bundle[id])))))]
  }

  /** The configuration and index of a call that gets the lock, but for what it loads before it gives the lock back. */
  function Prepared(d: Disk, ctx: Ctx, op: Op): Ctx {
    match op
    case SetConfig(info, _, _) =>
      if info.pier != ctx.config.pier then ctx.(config := info, bundle := map[info.pier := map[]])
      else ctx.(config := info)
    case AddPier(pier, _) =>
      if pier in RepoOf(d, ctx.config.repo) || pier in ctx.bundle then ctx
      else ctx.(bundle := ctx.bundle[pier := map[]])
    case DelPier(pier) => ctx.(bundle := ctx.bundle - {pier})
    case ReadCert(_) => ctx
    case _ =>
      var id := PierOf(op, ctx.config.pier);
      if id in ctx.bundle then ctx.(bundle := ctx.bundle[id := Edited(op, ctx.bundle[id])]) else ctx
  }

  /** The call loads the repository after it has written. */
  predicate Loads(ctx: Ctx, op: Op) {
    op.SetConfig? && op.info.pier != ctx.config.pier && op.info.repo != ""
  }

  /** The context as the call leaves it, with the stamp it has given the lock file. */
  function Finished(d: Disk, next: Ctx, load: bool, stamp: nat): Ctx {
    next.(bundle := if load then next.bundle + LoadedBundle(d, next.config) else next.bundle, time := Some(stamp))
  }

  // ---------------------------------------------------------------------------------------------------------
  // What is read under the lock
  // ---------------------------------------------------------------------------------------------------------

  /** What a reader has read: the configuration file, the directories of repositories (None: missing), their files. */
  datatype Seen = Seen(
    conf: Option<Option<Doc>>, ids: map<string, Option<set<string>>>, dirs: map<(string, string), Option<PierDir>>)

  const NOTHING := Seen(None, map[], map[])

  function IdsOn(d: Disk, repo: string): Option<set<string>> {
    if repo == "" || repo !in d.repos then None else Some(d.repos[repo].Keys)
  }

  function FilesOn(d: Disk, repo: string, id: string): Option<PierDir> {
    if id in RepoOf(d, repo) then Some(RepoOf(d, repo)[id]) else None
  }

  /** All that has been read is from this disk. */
  predicate IsFrom(seen: Seen, d: Disk) {
    && (seen.conf.Some? ==> seen.conf.value == d.conf)
    && (forall repo :: repo in seen.ids ==> seen.ids[repo] == IdsOn(d, repo))
    && (forall p :: p in seen.dirs ==> seen.dirs[p] == FilesOn(d, p.0, p.1))
  }

  /** The directory of a repository and the files of all its piers have been read. */
  predicate RepoRead(seen: Seen, repo: string) {
    && repo in seen.ids
    && (seen.ids[repo].Some? ==>
         forall id :: id in seen.ids[repo].value ==> (repo, id) in seen.dirs && seen.dirs[(repo, id)].Some?)
  }

  function RepoSeen(seen: Seen, repo: string): Repo
    requires RepoRead(seen, repo)
  {
    if seen.ids[repo].None? then map[] else map id | id in seen.ids[repo].value :: seen.dirs[(repo, id)].value
  }

  function ConfigSeen(seen: Seen): Result<Config>
    requires seen.conf.Some?
  {
    if seen.conf.value.None? then Err("cannot open file") else EngineConfig(seen.conf.value.value)
  }

  /** The engine has read all that a bulk command loads. */
  predicate ReadAll(seen: Seen) {
    seen.conf.Some? && (ConfigSeen(seen).Ok? ==> RepoRead(seen, ConfigSeen(seen).value.repo))
  }

  /** What the engine makes of it. */
  function LoadedAll(seen: Seen): Result<(Config, Listing)>
    requires ReadAll(seen)
  {
    var config := ConfigSeen(seen);
    if config.Err? then Err(config.error)
    else if seen.ids[config.value.repo].None? then Err("No such file or directory")
    else
      var repo := RepoSeen(seen, config.value.repo);
      var list := ListingOf(SortedKeys(repo.Keys), repo);
      if list.Err? then Err(list.error) else Ok((config.value, list.value))
  }

  /** The same for a command for one handle. */
  predicate ReadOne(seen: Seen, id: Handle) {
    seen.conf.Some? && (ConfigSeen(seen).Ok? ==> (ConfigSeen(seen).value.repo, id.pier) in seen.dirs)
  }

  function LoadedOne(seen: Seen, id: Handle): Result<(Config, Service)>
    requires ReadOne(seen, id)
  {
    var config := ConfigSeen(seen);
    if config.Err? then Err(config.error)
    else
      var dir := seen.dirs[(config.value.repo, id.pier)];
      var service := if dir.None? then Ok(EMPTY_SERVICE) else EngineService(DocOf(dir.value), id.service);
      if service.Err? then Err(service.error) else Ok((config.value, service.value))
  }

  /** A context that is being opened has read all that it loads. */
  predicate ReadHome(seen: Seen) {
    && seen.conf.Some?
    && (seen.conf.value.Some? && ContextConfig(seen.conf.value.value).Ok? ==>
         RepoRead(seen, ContextConfig(seen.conf.value.value).value.repo))
  }

  function OpenedFrom(seen: Seen): Result<Ctx>
    requires ReadHome(seen)
  {
    if seen.conf.value.None? then Ok(Ctx(EMPTY_CONFIG, map[], None))
    else
      var config := ContextConfig(seen.conf.value.value);
      if config.Err? then Err(config.error)
      else
        var repo := RepoSeen(seen, config.value.repo);
        Ok(Ctx(config.value,
          map id | id in repo && repo[id].cert.Some? :: ContextServices(DocOf(repo[id]), id == config.value.pier),
          None))
  }

  // ---------------------------------------------------------------------------------------------------------
  // The machine
  // ---------------------------------------------------------------------------------------------------------

  datatype Reader = TheEngine | NewContext(id: nat)

  /** Who holds the lock: a call with the accesses it still has to make, or a reader with what it has read. */
  datatype Lock =
    | Free
    | Writing(id: nat, op: Op, next: Ctx, load: bool, todo: seq<Write>)
    | Reading(who: Reader, seen: Seen)

  /** The home, its contexts, its lock, and the calls and openings that are over, in the order of the lock. */
  datatype Machine = Machine(home: Home, members: map<nat, Member>, lock: Lock, log: seq<Event>)

  datatype Move =
    | Take(id: nat, op: Op)       // a call gets the lock
    | Put                         // ... makes its next access
    | Release                     // ... gives the lock back
    | Pass(id: nat, op: Op)       // a call that ends without the hard lock
    | Begin(who: Reader)
    | LookConf
    | LookIds(repo: string)
    | LookDir(repo: string, pier: string)
    | End

  function WorldOf(m: Machine): World {
    World(m.home, m.members)
  }

  function SawMore(m: Machine, seen: Seen): Machine
    requires m.lock.Reading?
  {
    m.(lock := m.lock.(seen := seen))
  }

  function Step(m: Machine, move: Move): Machine {
    match move
    case Take(id, op) =>
      if m.lock.Free? && Writes(WorldOf(m), Call(id, op)) then
        var ctx := m.members[id].ctx;
        m.(lock := Writing(id, op, Prepared(m.home.disk, ctx, op), Loads(ctx, op), Accesses(m.home.disk, ctx, op)))
      else m
    case Put =>
      if m.lock.Writing? && m.lock.todo != [] then
        m.(home := m.home.(disk := Apply(m.home.disk, m.lock.todo[0])), lock := m.lock.(todo := m.lock.todo[1..]))
      else m
    case Release =>
      if m.lock.Writing? && m.lock.todo == [] && m.lock.id in m.members then
        var ctx := Finished(m.home.disk, m.lock.next, m.lock.load, m.home.stamp + 1);
        var members := m.members[m.lock.id := m.members[m.lock.id].(ctx := ctx)];
        Machine(m.home.(stamp := m.home.stamp + 1), members, Free, m.log + [Call(m.lock.id, m.lock.op)])
      else m
    case Pass(id, op) =>
      if m.lock.Free? && !Writes(WorldOf(m), Call(id, op)) then
        var w := Next(WorldOf(m), Call(id, op));
        Machine(w.home, w.members, Free, m.log + [Call(id, op)])
      else m
    case Begin(who) => if m.lock.Free? then m.(lock := Reading(who, NOTHING)) else m
    case LookConf =>
      if m.lock.Reading? then SawMore(m, m.lock.seen.(conf := Some(m.home.disk.conf))) else m
    case LookIds(repo) =>
      if m.lock.Reading? then SawMore(m, m.lock.seen.(ids := m.lock.seen.ids[repo := IdsOn(m.home.disk, repo)])) else m
    case LookDir(repo, pier) =>
      if m.lock.Reading? then
        SawMore(m, m.lock.seen.(dirs := m.lock.seen.dirs[(repo, pier) := FilesOn(m.home.disk, repo, pier)]))
      else m
    case End =>
      if m.lock.Reading? && m.lock.who.TheEngine? then m.(lock := Free)
      else if m.lock.Reading? && m.lock.who.NewContext? && ReadHome(m.lock.seen) then
        var ctx := OpenedFrom(m.lock.seen);
        var id := m.lock.who.id;
        var members := if ctx.Ok? then m.members[id := Member(ctx.value, m.home.stamp)] else m.members;
        m.(members := members, lock := Free, log := m.log + [OpenHome(id)])
      else m
  }

  function Moved(m: Machine, moves: seq<Move>): Machine
    decreases |moves|
  {
    if moves == [] then m else Moved(Step(m, moves[0]), moves[1..])
  }

  function Start(home: Home): Machine {
    Machine(home, map[], Free, [])
  }

  /** The world after the calls and openings that are over, each taken as a single event. */
  function Past(start: Home, log: seq<Event>): World {
    Worlds.Run(World(start, map[]), log)
  }

  /** The machine is where those events lead, or on the way to where the call that holds the lock leads from there. */
  predicate Consistent(m: Machine, start: Home) {
    var past := Past(start, m.log);
    match m.lock
    case Free => WorldOf(m) == past
    case Reading(_, seen) => WorldOf(m) == past && IsFrom(seen, m.home.disk)
    case Writing(id, op, next, load, todo) =>
      && m.members == past.members && m.home.stamp == past.home.stamp && Writes(past, Call(id, op))
      && (var a := Exec(past.home, past.members[id].ctx, op);
         ApplyAll(m.home.disk, todo) == a.home.disk && Finished(a.home.disk, next, load, past.home.stamp + 1) == a.ctx)
  }

  // ---------------------------------------------------------------------------------------------------------
  // The accesses of a call add up
  // ---------------------------------------------------------------------------------------------------------

  lemma {:induction false} ApplyAppend(d: Disk, a: seq<Write>, b: seq<Write>)
    ensures ApplyAll(d, a + b) == ApplyAll(ApplyAll(d, a), b)
    decreases |a|
  {
    hide Apply;
    if a == [] {
      assert a + b == b;
    } else {
      assert (a + b)[1..] == a[1..] + b;
      ApplyAppend(Apply(d, a[0]), a[1..], b);
    }
  }

  /** Later accesses to a directory replace earlier ones. */
  lemma DirsReplace(d: Disk, repo: string, id: string, a: PierDir, b: PierDir)
    ensures WithDir(WithDir(d, repo, id, a), repo, id, b) == WithDir(d, repo, id, b)
    ensures WithDir(Apply(d, MakeRepo(repo)), repo, id, b) == WithDir(d, repo, id, b)
    ensures id in RepoOf(d, repo) ==> WithoutDir(WithDir(d, repo, id, a), repo, id) == WithoutDir(d, repo, id)
  {
    var r := RepoOf(d, repo);
    assert r[id := a][id := b] == r[id := b];
    assert r[id := a] - {id} == r - {id};
    if repo != "" {
      assert d.repos[repo := r[id := a]][repo := r[id := b]] == d.repos[repo := r[id := b]];
      assert d.repos[repo := r][repo := r[id := b]] == d.repos[repo := r[id := b]];
      assert d.repos[repo := r[id := a]][repo := r - {id}] == d.repos[repo := r - {id}];
    }
  }

  lemma ApplyOne(d: Disk, a: Write)
    ensures ApplyAll(d, [a]) == Apply(d, a)
  {
    assert [a][1..] == [];
  }

  lemma ApplyThree(d: Disk, a: Write, b: Write, c: Write)
    ensures ApplyAll(d, [a, b, c]) == Apply(Apply(Apply(d, a), b), c)
  {
    hide Apply;
    assert [a, b, c][1..] == [b, c] && [b, c][1..] == [c];
    ApplyOne(Apply(Apply(d, a), b), c);
  }

  lemma InstallAddsUp(d: Disk, ctx: Ctx, info: Config, minted: string, wrong: bool)
    requires info.repo != "" && info.pier != ctx.config.pier
    ensures ApplyAll(d, Accesses(d, ctx, SetConfig(info, minted, wrong))) == Installed(d, info, minted)
  {
    hide ConfigDoc;
    var dir := DirOf(d, info.repo, info.pier);
    var full := dir.(cert := Some(minted), key := true);
    var made := Apply(d, MakeRepo(info.repo));
    var conf := PutConf(ConfigDoc(info));
    if dir.cert.None? && !dir.key {
      var a, c := PutDir(info.repo, info.pier, dir), PutDir(info.repo, info.pier, full);
      var b := PutDir(info.repo, info.pier, dir.(cert := Some(minted)));
      ApplyAppend(d, [MakeRepo(info.repo)] + [a, b, c], [conf]);
      ApplyAppend(d, [MakeRepo(info.repo)], [a, b, c]);
      ApplyOne(d, MakeRepo(info.repo));
      ApplyThree(made, a, b, c);
      DirsReplace(made, info.repo, info.pier, dir, dir.(cert := Some(minted)));
      DirsReplace(made, info.repo, info.pier, dir.(cert := Some(minted)), full);
      DirsReplace(d, info.repo, info.pier, dir, full);
      ApplyOne(WithDir(d, info.repo, info.pier, full), conf);
    } else {
      ApplyAppend(d, [MakeRepo(info.repo)] + [], [conf]);
      assert [MakeRepo(info.repo)] + [] == [MakeRepo(info.repo)];
      ApplyOne(d, MakeRepo(info.repo));
      ApplyOne(made, conf);
      var r := RepoOf(d, info.repo);
      assert r[info.pier := dir] == r && d.repos[info.repo := r] == d.repos;
    }
  }

  lemma DelPierAddsUp(d: Disk, ctx: Ctx, pier: string)
    ensures ApplyAll(d, Accesses(d, ctx, DelPier(pier))) == WithoutDir(d, ctx.config.repo, pier)
  {
    hide WithDir, WithoutDir;
    var repo := ctx.config.repo;
    if pier in RepoOf(d, repo) {
      var dir, bare := DirOf(d, repo, pier), PierDir(None, false, None);
      var a, c := PutDir(repo, pier, dir.(conf := None)), PutDir(repo, pier, bare);
      var b := PutDir(repo, pier, dir.(conf := None, key := false));
      assert Accesses(d, ctx, DelPier(pier)) == [a, b, c] + [DropDir(repo, pier)];
      ApplyAppend(d, [a, b, c], [DropDir(repo, pier)]);
      ApplyThree(d, a, b, c);
      DirsReplace(d, repo, pier, a.dir, b.dir);
      DirsReplace(d, repo, pier, b.dir, bare);
      DirsReplace(d, repo, pier, bare, bare);
      ApplyOne(WithDir(d, repo, pier, bare), DropDir(repo, pier));
    } else {
      NothingToDrop(d, repo, pier);
    }
  }

  lemma NothingToDrop(d: Disk, repo: string, pier: string)
    requires pier !in RepoOf(d, repo)
    ensures WithoutDir(d, repo, pier) == d
  {
  }

  lemma AddPierAddsUp(home: Home, ctx: Ctx, pier: string, cert: string)
    requires Exec(home, ctx, AddPier(pier, cert)).outcome in {Done, Refused}
    ensures var op := AddPier(pier, cert);
      ApplyAll(home.disk, Accesses(home.disk, ctx, op)) == Exec(home, ctx, op).home.disk
  {
    hide WithDir;
    var d, repo := home.disk, ctx.config.repo;
    if pier !in RepoOf(d, repo) {
      var bare, full := PierDir(None, false, None), PierDir(Some(cert), false, None);
      ApplyThree(d, MakeRepo(repo), PutDir(repo, pier, bare), PutDir(repo, pier, full));
      DirsReplace(Apply(d, MakeRepo(repo)), repo, pier, bare, full);
      DirsReplace(d, repo, pier, bare, full);
    }
  }

  lemma EditAddsUp(home: Home, ctx: Ctx, op: Op)
    requires IsEdit(op) && Exec(home, ctx, op).outcome in {Done, Refused, Failed}
    ensures ApplyAll(home.disk, Accesses(home.disk, ctx, op)) == Exec(home, ctx, op).home.disk
  {
    hide SavedDoc, WithDir, RepoOf;
    var id := PierOf(op, ctx.config.pier);
    if id in RepoOf(home.disk, ctx.config.repo) {
      var dir := RepoOf(home.disk, ctx.config.repo)[id];
      ApplyOne(home.disk, PutDir(ctx.config.repo, id, dir.(conf := Some(SavedDoc(Edited(op, ctx.bundle[id]))))));
    }
  }

  /** A call that gets the lock, by whatever context, leaves with its accesses the disk that the call leaves. */
  lemma AccessesAddUp(home: Home, ctx: Ctx, op: Op)
    requires Exec(home, ctx, op).outcome in {Done, Refused, Failed}
    ensures ApplyAll(home.disk, Accesses(home.disk, ctx, op)) == Exec(home, ctx, op).home.disk
  {
    hide ConfigDoc, WithDir, WithoutDir, Installed, Accesses, LoadedBundle;
    match op
    case SetConfig(info, minted, wrong) => SetConfigAddsUp(home, ctx, info, minted, wrong);
    case AddPier(pier, cert) => AddPierAddsUp(home, ctx, pier, cert);
    case DelPier(pier) => DelPierAddsUp(home.disk, ctx, pier);
    case ReadCert(_) =>
    case _ => EditAddsUp(home, ctx, op);
  }

  lemma SetConfigAddsUp(home: Home, ctx: Ctx, info: Config, minted: string, wrong: bool)
    requires Exec(home, ctx, SetConfig(info, minted, wrong)).outcome in {Done, Refused, Failed}
    ensures var op := SetConfig(info, minted, wrong);
      ApplyAll(home.disk, Accesses(home.disk, ctx, op)) == Exec(home, ctx, op).home.disk
  {
    hide ConfigDoc, Installed, LoadedBundle;
    if info.pier == ctx.config.pier { ApplyOne(home.disk, PutConf(ConfigDoc(info))); }
    else if info.repo != "" { InstallAddsUp(home.disk, ctx, info, minted, wrong); }
  }

  /** ... and the context that the call leaves. */
  lemma FinishedIs(home: Home, ctx: Ctx, op: Op)
    requires Exec(home, ctx, op).outcome in {Done, Refused, Failed}
    ensures var a := Exec(home, ctx, op);
      Finished(a.home.disk, Prepared(home.disk, ctx, op), Loads(ctx, op), home.stamp + 1) == a.ctx
  {
    hide SavedDoc, ConfigDoc, WithDir, WithoutDir, Installed, LoadedBundle, RepoOf;
  }

  // ---------------------------------------------------------------------------------------------------------
  // The machine refines the contexts of Worlds
  // ---------------------------------------------------------------------------------------------------------

  lemma PastGrows(start: Home, log: seq<Event>, ev: Event)
    ensures Past(start, log + [ev]) == Next(Past(start, log), ev)
  {
    RunLast(World(start, map[]), log, ev);
  }

  /** What is read from a disk is what opening it would read. */
  lemma OpenedIs(seen: Seen, d: Disk)
    requires ReadHome(seen) && IsFrom(seen, d)
    ensures OpenedFrom(seen) == Open(d)
  {
    hide ContextConfig, ContextServices;
    if d.conf.Some? && ContextConfig(d.conf.value).Ok? { RepoIs(seen, d, ContextConfig(d.conf.value).value.repo); }
  }

  lemma RepoIs(seen: Seen, d: Disk, repo: string)
    requires IsFrom(seen, d) && RepoRead(seen, repo)
    ensures RepoSeen(seen, repo) == RepoOf(d, repo) && (seen.ids[repo].None? <==> repo == "" || repo !in d.repos)
  {
    var l, r := RepoSeen(seen, repo), RepoOf(d, repo);
    assert l.Keys == r.Keys;
    forall id | id in l ensures l[id] == r[id] { assert seen.dirs[(repo, id)] == FilesOn(d, repo, id); }
  }

  lemma TakeConsistent(m: Machine, id: nat, op: Op, start: Home)
    requires Consistent(m, start) && m.lock.Free?
    ensures Consistent(Step(m, Take(id, op)), start)
  {
    hide Exec, Accesses, Prepared, Loads, Finished, Past;
    if Writes(WorldOf(m), Call(id, op)) {
      AccessesAddUp(m.home, m.members[id].ctx, op);
      FinishedIs(m.home, m.members[id].ctx, op);
    }
  }

  lemma ReleaseConsistent(m: Machine, start: Home)
    requires Consistent(m, start) && m.lock.Writing? && m.lock.todo == []
    ensures Consistent(Step(m, Release), start)
  {
    hide Exec, Finished, Past;
    var past := Past(start, m.log);
    StaysCurrent(past.home, past.members[m.lock.id].ctx, m.lock.op);
    PastGrows(start, m.log, Call(m.lock.id, m.lock.op));
  }

  lemma EndConsistent(m: Machine, start: Home)
    requires Consistent(m, start) && m.lock.Reading?
    ensures Consistent(Step(m, End), start)
  {
    hide Past, Open, OpenedFrom, ReadHome, IsFrom;
    if m.lock.who.NewContext? && ReadHome(m.lock.seen) {
      OpenedIs(m.lock.seen, m.home.disk);
      PastGrows(start, m.log, OpenHome(m.lock.who.id));
    }
  }

  lemma ConsistentStep(m: Machine, move: Move, start: Home)
    requires Consistent(m, start)
    ensures Consistent(Step(m, move), start)
  {
    hide Past, Exec, Writes, Accesses, Prepared, Loads, Finished, OpenedFrom, ReadHome, Apply, Next, IdsOn, FilesOn;
    match move
    case Take(id, op) => if m.lock.Free? { TakeConsistent(m, id, op, start); }
    case Release => if m.lock.Writing? && m.lock.todo == [] { ReleaseConsistent(m, start); }
    case Pass(id, op) => PastGrows(start, m.log, Call(id, op));
    case End => if m.lock.Reading? { EndConsistent(m, start); }
    case _ =>
  }

  lemma {:induction false} RunConsistent(m: Machine, moves: seq<Move>, start: Home)
    requires Consistent(m, start)
    ensures Consistent(Moved(m, moves), start)
    decreases |moves|
  {
    hide Consistent, Step;
    if moves != [] {
      ConsistentStep(m, moves[0], start);
      RunConsistent(Step(m, moves[0]), moves[1..], start);
    }
  }

  /**
   In every interleaving of single file accesses, by any contexts and whatever these have missed: when no call holds
   the lock, disk, stamp and contexts are those after the past calls and openings, each taken as one event.
   */
  lemma MachineRefinesWorlds(home: Home, moves: seq<Move>)
    ensures var m := Moved(Start(home), moves); !m.lock.Writing? ==> WorldOf(m) == Past(home, m.log)
  {
    hide Step, Past;
    assert Consistent(Start(home), home) by { StartConsistent(home); }
    RunConsistent(Start(home), moves, home);
  }

  lemma StartConsistent(home: Home)
    ensures Consistent(Start(home), home)
  {
  }

  // ---------------------------------------------------------------------------------------------------------
  // What the engine loads
  // ---------------------------------------------------------------------------------------------------------

  lemma LoadedIs(seen: Seen, d: Disk)
    requires IsFrom(seen, d)
    ensures ReadAll(seen) ==> LoadedAll(seen) == LoadAll(d)
    ensures forall id :: ReadOne(seen, id) ==> LoadedOne(seen, id) == LoadOne(d, id)
  {
    hide ListingOf, EngineConfig, EngineService;
    if ReadAll(seen) && ConfigSeen(seen).Ok? { RepoIs(seen, d, ConfigSeen(seen).value.repo); }
  }

  /**
   Snapshot consistency: what the engine loads from what it has read under the lock, in bulk or for one handle, is
   what it would load from the disk after a whole number of calls, for any contexts, clean or not, any calls, and
   any interleaving of single accesses.
   */
  lemma LoadsAreSnapshots(home: Home, moves: seq<Move>)
    ensures var m := Moved(Start(home), moves); var d := Past(home, m.log).home.disk;
      m.lock.Reading? ==>
        && (ReadAll(m.lock.seen) ==> LoadedAll(m.lock.seen) == LoadAll(d))
        && (forall id :: ReadOne(m.lock.seen, id) ==> LoadedOne(m.lock.seen, id) == LoadOne(d, id))
  {
    hide Step, Past, LoadAll, LoadOne, LoadedAll, LoadedOne, ReadAll, ReadOne, IsFrom;
    assert Consistent(Start(home), home) by { StartConsistent(home); }
    RunConsistent(Start(home), moves, home);
    var m := Moved(Start(home), moves);
    if m.lock.Reading? { LoadedIs(m.lock.seen, m.home.disk); }
  }

  /** While the calls that commit are faithful, that disk is what the committed operations make of the first one. */
  lemma LoadsAreReplays(home: Home, moves: seq<Move>)
    ensures var m := Moved(Start(home), moves);
      && m.lock.Reading? && ReadAll(m.lock.seen)
      && (forall n: nat :: n < |m.log| ==> FaithfulAt(At(home, m.log, n), m.log[n]))
      ==> LoadedAll(m.lock.seen) == LoadAll(Replay(home.disk, Log(World(home, map[]), m.log)))
  {
    hide Step, Past, LoadAll, LoadOne, LoadedAll, LoadedOne, ReadAll, ReadOne, FaithfulAt, Replay, Log;
    LoadsAreSnapshots(home, moves);
    var m := Moved(Start(home), moves);
    if forall n: nat :: n < |m.log| ==> FaithfulAt(At(home, m.log, n), m.log[n]) {
      LostExactly(home, m.log);
      WholeLog(home, m.log);
    }
  }

  lemma WholeLog(home: Home, log: seq<Event>)
    requires NothingLost(home, log)
    ensures Past(home, log).home.disk == Replay(home.disk, Log(World(home, map[]), log))
  {
    hide Replay, Log, Worlds.Run;
    assert log[..|log|] == log;
    assert At(home, log, |log|).home.disk == Replay(home.disk, Log(World(home, map[]), log[..|log|]));
  }
}
