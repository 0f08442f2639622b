/**
 The configuration store of src/store/context.cpp: an in-memory index over a directory of files. Contexts that
 share a home detect each other's writes by the modification stamp of the lock file, which every holder of the
 hard lock renews. Stamps are fresh numbers; saving to an existing directory succeeds.
 */
module Store {
  import opened Text
  import opened Settings
  import opened Files

  type Index = map<string, Services>

  /** A context: m_config, m_bundle and the stamp of its last write, m_guard.m_time (None: never written). */
  datatype Ctx = Ctx(config: Config, bundle: Index, time: Option<nat>)

  /** The disk and the modification stamp of the lock file. */
  datatype Home = Home(disk: Disk, stamp: nat)

  /**
   The calls. `minted` is the certificate generated for a new local pier; `wrong` is what set_config found before it
   took the lock: that pier had a certificate without a key, or a key without a certificate.
   */
  datatype Op =
    | SetConfig(info: Config, minted: string, wrong: bool)
    | AddExport(service: Service)
    | DelExport(name: string)
    | AddImport(service: Service)
    | DelImport(pier: string, name: string)
    | AddPier(pier: string, cert: string)
    | DelPier(pier: string)
    | ReadCert(pier: string)                     // get_certificate, get_fingerprint

  /**
   How a call ends: `Done` with its changes on disk, `Nothing` without having to write, `Usage` with a usage_error
   before the lock is taken, `Refused` with one under the lock, `Failed` with an error of the file system under the
   lock, `Stale` with a stale_error.
   */
  datatype Outcome = Done | Nothing | Usage | Refused | Failed | Stale

  datatype Answer = Answer(home: Home, ctx: Ctx, outcome: Outcome)

  // ---------------------------------------------------------------------------------------------------------
  // Opening
  // ---------------------------------------------------------------------------------------------------------

  /** The services of every pier directory with a certificate. */
  function LoadedBundle(d: Disk, config: Config): Index {
    var repo := RepoOf(d, config.repo);
    map id | id in repo && repo[id].cert.Some? :: ContextServices(DocOf(repo[id]), id == config.pier)
  }

  /** The constructor of context_impl. */
  function Open(d: Disk): (r: Result<Ctx>)
    ensures r.Ok? ==> r.value.time == None
  {
    if d.conf.None? then Ok(Ctx(EMPTY_CONFIG, map[], None))
    else
      var config := ContextConfig(d.conf.value);
      if config.Err? then Err(config.error) else Ok(Ctx(config.value, LoadedBundle(d, config.value), None))
  }

  /** soft_lock does not throw: the context has not written yet, or nobody has since it did. */
  predicate Current(ctx: Ctx, stamp: nat) {
    ctx.time.None? || ctx.time.value == stamp
  }

  // ---------------------------------------------------------------------------------------------------------
  // The calls
  // ---------------------------------------------------------------------------------------------------------

  /** Leaving the hard lock renews the stamp and the context remembers it. */
  function Unlock(home: Home, ctx: Ctx, disk: Disk, outcome: Outcome): Answer {
    Answer(Home(disk, home.stamp + 1), ctx.(time := Some(home.stamp + 1)), outcome)
  }

  /** The empty path names no directory, so nothing of the disk can be put there. */
  function WithDir(d: Disk, repo: string, id: string, dir: PierDir): Disk {
    if repo == "" then d else d.(repos := d.repos[repo := RepoOf(d, repo)[id := dir]])
  }

  /** save_pier_config under the lock, after the index has been changed. */
  function Save(home: Home, ctx: Ctx, pier: string): Answer
    requires pier in ctx.bundle
  {
    if !Current(ctx, home.stamp) then Answer(home, ctx, Stale)
    else
      var repo := RepoOf(home.disk, ctx.config.repo);
      if pier !in repo then Unlock(home, ctx, home.disk, Failed)
      else
        var dir := repo[pier].(conf := Some(SavedDoc(ctx.bundle[pier])));
        Unlock(home, ctx, WithDir(home.disk, ctx.config.repo, pier, dir), Done)
  }

  function Add(home: Home, ctx: Ctx, pier: string, service: Service): Answer {
    if pier !in ctx.bundle || service.name in ctx.bundle[pier] then Answer(home, ctx, Usage)
    else Save(home, ctx.(bundle := ctx.bundle[pier := ctx.bundle[pier][service.name := service]]), pier)
  }

  function Del(home: Home, ctx: Ctx, pier: string, name: string): Answer {
    if pier !in ctx.bundle then Answer(home, ctx, Usage)
    else if name !in ctx.bundle[pier] then Answer(home, ctx, Nothing)
    else Save(home, ctx.(bundle := ctx.bundle[pier := ctx.bundle[pier] - {name}]), pier)
  }

  function DirOf(d: Disk, repo: string, id: string): PierDir {
    if id in RepoOf(d, repo) then RepoOf(d, repo)[id] else PierDir(None, false, None)
  }

  /** A local pier must have both a certificate and a key, or neither. */
  predicate Wrong(d: Disk, info: Config) {
    DirOf(d, info.repo, info.pier).cert.Some? != DirOf(d, info.repo, info.pier).key
  }

  /** What set_config writes for a new local pier: its directory with a key pair if it has none, and the file. */
  function Installed(d: Disk, info: Config, minted: string): Disk {
    var dir := DirOf(d, info.repo, info.pier);
    var full := if dir.cert.None? && !dir.key then dir.(cert := Some(minted), key := true) else dir;
    WithDir(d, info.repo, info.pier, full).(conf := Some(ConfigDoc(info)))
  }

  function SetConfigAnswer(home: Home, ctx: Ctx, info: Config, minted: string, wrong: bool): Answer {
    if info.pier != ctx.config.pier then
      if wrong then Answer(home, ctx, Usage)
      else
        var next := ctx.(config := info, bundle := map[info.pier := map[]]);
        if !Current(ctx, home.stamp) then Answer(home, next, Stale)
        else if info.repo == "" then Unlock(home, next, home.disk, Failed)
        else
          var disk := Installed(home.disk, info, minted);
          Unlock(home, next.(bundle := next.bundle + LoadedBundle(disk, info)), disk, Done)
    else
      var next := ctx.(config := info);
      if !Current(ctx, home.stamp) then Answer(home, next, Stale)
      else Unlock(home, next, home.disk.(conf := Some(ConfigDoc(info))), Done)
  }

  function AddPierAnswer(home: Home, ctx: Ctx, pier: string, cert: string): Answer {
    if !Current(ctx, home.stamp) then Answer(home, ctx, Stale)
    else if pier in RepoOf(home.disk, ctx.config.repo) then Unlock(home, ctx, home.disk, Refused)
    else
      var next := if pier in ctx.bundle then ctx else ctx.(bundle := ctx.bundle[pier := map[]]);
      Unlock(home, next, WithDir(home.disk, ctx.config.repo, pier, PierDir(Some(cert), false, None)), Done)
  }

  function WithoutDir(d: Disk, repo: string, id: string): Disk {
    if id in RepoOf(d, repo) then d.(repos := d.repos[repo := RepoOf(d, repo) - {id}]) else d
  }

  function DelPierAnswer(home: Home, ctx: Ctx, pier: string): Answer {
    if ctx.config.pier == pier then Answer(home, ctx, Usage)
    else if !Current(ctx, home.stamp) then Answer(home, ctx, Stale)
    else Unlock(home, ctx.(bundle := ctx.bundle - {pier}), WithoutDir(home.disk, ctx.config.repo, pier), Done)
  }

  function Exec(home: Home, ctx: Ctx, op: Op): Answer {
    match op
    case SetConfig(info, minted, wrong) => SetConfigAnswer(home, ctx, info, minted, wrong)
    case AddExport(service) =>
      if !service.local then Answer(home, ctx, Usage) else Add(home, ctx, ctx.config.pier, service)
    case DelExport(name) => Del(home, ctx, ctx.config.pier, name)
    case AddImport(service) => if service.local then Answer(home, ctx, Usage) else Add(home, ctx, service.pier, service)
    case DelImport(pier, name) => Del(home, ctx, pier, name)
    case AddPier(pier, cert) => AddPierAnswer(home, ctx, pier, cert)
    case DelPier(pier) => DelPierAnswer(home, ctx, pier)
    case ReadCert(_) => Answer(home, ctx, if Current(ctx, home.stamp) then Nothing else Stale)
  }

  // ---------------------------------------------------------------------------------------------------------
  // What a call means for the disk
  // ---------------------------------------------------------------------------------------------------------

  function ConfigOn(d: Disk): Config {
    if Open(d).Ok? then Open(d).value.config else EMPTY_CONFIG
  }

  /** The services in the file of a pier, as a context would read them. */
  function ServicesOn(d: Disk, id: string): Services {
    ContextServices(DocOf(DirOf(d, ConfigOn(d).repo, id)), id == ConfigOn(d).pier)
  }

  function WithServices(d: Disk, id: string, services: Services): Disk {
    var repo := ConfigOn(d).repo;
    WithDir(d, repo, id, DirOf(d, repo, id).(conf := Some(SavedDoc(services))))
  }

  /** The effect of a successful call, stated on the files alone: no context takes part in it. */
  function Effect(d: Disk, op: Op): Disk {
    match op
    case SetConfig(info, minted, _) =>
      if info.pier != ConfigOn(d).pier then Installed(d, info, minted) else d.(conf := Some(ConfigDoc(info)))
    case AddExport(s) => WithServices(d, ConfigOn(d).pier, ServicesOn(d, ConfigOn(d).pier)[s.name := s])
    case DelExport(name) => WithServices(d, ConfigOn(d).pier, ServicesOn(d, ConfigOn(d).pier) - {name})
    case AddImport(s) => WithServices(d, s.pier, ServicesOn(d, s.pier)[s.name := s])
    case DelImport(pier, name) => WithServices(d, pier, ServicesOn(d, pier) - {name})
    case AddPier(pier, cert) => WithDir(d, ConfigOn(d).repo, pier, PierDir(Some(cert), false, None))
    case DelPier(pier) => WithoutDir(d, ConfigOn(d).repo, pier)
    case ReadCert(_) => d
  }

  // ---------------------------------------------------------------------------------------------------------
  // Cache and disk
  // ---------------------------------------------------------------------------------------------------------

  /** Reopening the home would give this context: the same index and, up to dht.network, the same configuration. */
  predicate Agrees(ctx: Ctx, d: Disk) {
    && Open(d).Ok?
    && Open(d).value.config == WithoutNetwork(ctx.config)
    && Open(d).value.bundle == ctx.bundle
  }

  /**
   The calls after which cache and disk can agree: a repository has a path, set_config changes the repository
   only together with the local pier and what it has found of the key pair still holds, and piers are added once a
   repository is configured.
   */
  predicate Fits(op: Op, ctx: Ctx, d: Disk) {
    match op
    case SetConfig(info, _, wrong) =>
      if info.pier == ctx.config.pier then info.repo == ctx.config.repo
      else info.repo != "" && (wrong || !Wrong(d, info))
    case AddPier(_, _) => ctx.config.repo != ""
    case _ => true
  }

  lemma {:induction false} ContextServicesKeyed(doc: PierDoc, isLocalPier: bool)
    ensures Keyed(ContextServices(doc, isLocalPier))
  {
    hide ContextItem;
    if doc != [] { ContextServicesKeyed(doc[1..], isLocalPier); }
  }

  lemma AgreesKeyed(ctx: Ctx, d: Disk, id: string)
    requires Agrees(ctx, d) && id in ctx.bundle
    ensures Keyed(ctx.bundle[id]) && id in RepoOf(d, ctx.config.repo) && RepoOf(d, ctx.config.repo)[id].cert.Some?
    ensures ctx.config.repo != "" && ctx.config.repo in d.repos && d.conf.Some?
    ensures ConfigOn(d).repo == ctx.config.repo && ConfigOn(d).pier == ctx.config.pier
    ensures ServicesOn(d, id) == ctx.bundle[id]
  {
    hide ContextServices, ContextConfig;
    ContextServicesKeyed(DocOf(RepoOf(d, ctx.config.repo)[id]), id == ctx.config.pier);
  }

  /** Writing the changed services of a pier keeps cache and disk together. */
  lemma SaveAgrees(home: Home, ctx: Ctx, pier: string, services: Services)
    requires Agrees(ctx, home.disk) && Current(ctx, home.stamp) && pier in ctx.bundle && Keyed(services)
    ensures var a := Save(home, ctx.(bundle := ctx.bundle[pier := services]), pier);
      a.outcome == Done && Agrees(a.ctx, a.home.disk) && a.home.disk == WithServices(home.disk, pier, services)
  {
    hide ContextServices, ContextConfig, SavedDoc, LoadedBundle;
    AgreesKeyed(ctx, home.disk, pier);
    Reloaded(home.disk, WithoutNetwork(ctx.config), pier, services);
  }

  /** A rewritten pier file changes the index of its pier. */
  lemma Reloaded(d: Disk, config: Config, pier: string, services: Services)
    requires config.repo != "" && pier in RepoOf(d, config.repo) && RepoOf(d, config.repo)[pier].cert.Some?
    requires Keyed(services)
    ensures var e := WithDir(d, config.repo, pier, RepoOf(d, config.repo)[pier].(conf := Some(SavedDoc(services))));
      LoadedBundle(e, config) == LoadedBundle(d, config)[pier := services]
  {
    hide ContextServices, SavedDoc;
    SavedDocLoads(services);
    var e := WithDir(d, config.repo, pier, RepoOf(d, config.repo)[pier].(conf := Some(SavedDoc(services))));
    var l, r := LoadedBundle(e, config), LoadedBundle(d, config)[pier := services];
    assert l.Keys == r.Keys;
    assert forall id :: id in l ==> l[id] == r[id];
  }

  lemma DirAdded(d: Disk, config: Config, pier: string, cert: string)
    requires config.repo != ""
    ensures var e := WithDir(d, config.repo, pier, PierDir(Some(cert), false, None));
      LoadedBundle(e, config) == LoadedBundle(d, config)[pier := map[]]
    ensures pier in LoadedBundle(d, config) ==> pier in RepoOf(d, config.repo)
  {
    hide ContextServices;
    NoServices(pier == config.pier);
    var e := WithDir(d, config.repo, pier, PierDir(Some(cert), false, None));
    var l, r := LoadedBundle(e, config), LoadedBundle(d, config)[pier := map[]];
    assert RepoOf(e, config.repo) == RepoOf(d, config.repo)[pier := PierDir(Some(cert), false, None)];
    assert l.Keys == r.Keys && l == r;
  }

  lemma DirRemoved(d: Disk, config: Config, pier: string)
    ensures LoadedBundle(WithoutDir(d, config.repo, pier), config) == LoadedBundle(d, config) - {pier}
  {
    hide ContextServices;
    var e := WithoutDir(d, config.repo, pier);
    var l, r := LoadedBundle(e, config), LoadedBundle(d, config) - {pier};
    assert RepoOf(e, config.repo) == RepoOf(d, config.repo) - {pier};
    assert l.Keys == r.Keys && l == r;
  }

  /** The local pier of an installed home is in its index, which does not depend on dht.network. */
  lemma InstalledLoads(d: Disk, info: Config, minted: string)
    requires info.repo != "" && !Wrong(d, info)
    ensures var e := Installed(d, info, minted); var l := LoadedBundle(e, info);
      map[info.pier := map[]] + l == l && LoadedBundle(e, WithoutNetwork(info)) == l && e.conf == Some(ConfigDoc(info))
  {
    hide ContextServices, ConfigDoc;
    var l := LoadedBundle(Installed(d, info, minted), info);
    assert info.pier in l;
  }

  lemma SetConfigAgrees(home: Home, ctx: Ctx, info: Config, minted: string, wrong: bool)
    requires Agrees(ctx, home.disk) && Current(ctx, home.stamp) && Fits(SetConfig(info, minted, wrong), ctx, home.disk)
    ensures var a := SetConfigAnswer(home, ctx, info, minted, wrong);
      && a.outcome in {Done, Usage}
      && (a.outcome == Done ==>
           Agrees(a.ctx, a.home.disk) && a.home.disk == Effect(home.disk, SetConfig(info, minted, wrong)))
  {
    hide ContextServices, ContextConfig, ConfigDoc, Installed;
    ConfigRoundTrip(info);
    var a := SetConfigAnswer(home, ctx, info, minted, wrong);
    if a.outcome == Done {
      if info.pier != ctx.config.pier {
        InstalledLoads(home.disk, info, minted);
      } else {
        assert home.disk.conf.None? ==> RepoOf(a.home.disk, info.repo) == map[];
        assert LoadedBundle(a.home.disk, WithoutNetwork(info)) == ctx.bundle;
      }
    }
  }

  lemma PierAgrees(home: Home, ctx: Ctx, op: Op)
    requires Agrees(ctx, home.disk) && Current(ctx, home.stamp) && Fits(op, ctx, home.disk)
    requires (op.AddPier? || op.DelPier?)
    ensures var a := Exec(home, ctx, op);
      && a.outcome in {Done, Usage, Refused}
      && (a.outcome == Done ==> Agrees(a.ctx, a.home.disk) && a.home.disk == Effect(home.disk, op))
  {
    hide ContextConfig, LoadedBundle;
    var a := Exec(home, ctx, op);
    if a.outcome == Done {
      if op.AddPier? { DirAdded(home.disk, WithoutNetwork(ctx.config), op.pier, op.cert); }
      else { DirRemoved(home.disk, WithoutNetwork(ctx.config), op.pier); }
    }
  }

  /**
   A call by a context whose cache agrees with the disk is never stale and never fails; if it succeeds its effect
   on the disk is that of the operation itself and the cache still agrees, otherwise neither has changed.
   */
  lemma ExecAgrees(home: Home, ctx: Ctx, op: Op)
    requires Agrees(ctx, home.disk) && Current(ctx, home.stamp) && Fits(op, ctx, home.disk)
    ensures var a := Exec(home, ctx, op);
      && a.outcome != Stale && a.outcome != Failed
      && Agrees(a.ctx, a.home.disk)
      && a.home.disk == (if a.outcome == Done then Effect(home.disk, op) else home.disk)
      && (a.outcome != Done ==> a.ctx == ctx.(time := a.ctx.time))
  {
    hide Agrees, Save, WithServices, ServicesOn, LoadedBundle, Installed;
    var local := ctx.config.pier;
    match op
    case SetConfig(info, minted, wrong) => SetConfigAgrees(home, ctx, info, minted, wrong);
    case AddPier(_, _) => PierAgrees(home, ctx, op); TimeOnly(ctx, home.disk);
    case DelPier(_) => PierAgrees(home, ctx, op); TimeOnly(ctx, home.disk);
    case AddExport(s) =>
      if local in ctx.bundle {
        AgreesKeyed(ctx, home.disk, local);
        SaveAgrees(home, ctx, local, ctx.bundle[local][s.name := s]);
      }
    case AddImport(s) =>
      if s.pier in ctx.bundle {
        AgreesKeyed(ctx, home.disk, s.pier);
        SaveAgrees(home, ctx, s.pier, ctx.bundle[s.pier][s.name := s]);
      }
    case DelExport(name) =>
      if local in ctx.bundle {
        AgreesKeyed(ctx, home.disk, local);
        SaveAgrees(home, ctx, local, ctx.bundle[local] - {name});
      }
    case DelImport(pier, name) =>
      if pier in ctx.bundle {
        AgreesKeyed(ctx, home.disk, pier);
        SaveAgrees(home, ctx, pier, ctx.bundle[pier] - {name});
      }
    case ReadCert(_) =>
  }

  lemma TimeOnly(ctx: Ctx, d: Disk)
    requires Agrees(ctx, d)
    ensures forall t :: Agrees(ctx.(time := t), d)
  {
  }

  // ---------------------------------------------------------------------------------------------------------
  // A single context
  // ---------------------------------------------------------------------------------------------------------

  function Session(home: Home, ctx: Ctx, ops: seq<Op>): Answer
    decreases |ops|
  {
    if ops == [] then Answer(home, ctx, Nothing)
    else
      var a := Exec(home, ctx, ops[0]);
      Session(a.home, a.ctx, ops[1..])
  }

  predicate FitSession(home: Home, ctx: Ctx, ops: seq<Op>)
    decreases |ops|
  {
    ops != [] ==>
      var a := Exec(home, ctx, ops[0]);
      Fits(ops[0], ctx, home.disk) && FitSession(a.home, a.ctx, ops[1..])
  }

  /** A context that works alone always agrees with the disk: reopening the home gives its index and configuration. */
  lemma {:induction false} AloneAgrees(home: Home, ops: seq<Op>)
    requires Open(home.disk).Ok? && FitSession(home, Open(home.disk).value, ops)
    ensures var a := Session(home, Open(home.disk).value, ops); Agrees(a.ctx, a.home.disk)
  {
    OpenAgrees(home.disk);
    SessionAgrees(home, Open(home.disk).value, ops);
  }

  lemma OpenAgrees(d: Disk)
    requires Open(d).Ok?
    ensures Agrees(Open(d).value, d)
  {
  }

  lemma {:induction false} SessionAgrees(home: Home, ctx: Ctx, ops: seq<Op>)
    requires Agrees(ctx, home.disk) && Current(ctx, home.stamp) && FitSession(home, ctx, ops)
    ensures var a := Session(home, ctx, ops); Agrees(a.ctx, a.home.disk)
    decreases |ops|
  {
    hide Agrees, Exec, Fits;
    if ops != [] {
      ExecAgrees(home, ctx, ops[0]);
      StaysCurrent(home, ctx, ops[0]);
      var a := Exec(home, ctx, ops[0]);
      SessionAgrees(a.home, a.ctx, ops[1..]);
    }
  }

  /** The writer's stamp is the new one; a call that moves the stamp is one that held the lock. */
  lemma StaysCurrent(home: Home, ctx: Ctx, op: Op)
    ensures var a := Exec(home, ctx, op);
      && (a.outcome in {Done, Refused, Failed} ==>
           Current(ctx, home.stamp) && a.home.stamp == home.stamp + 1 && a.ctx.time == Some(a.home.stamp))
      && (a.outcome in {Nothing, Usage, Stale} ==> a.home == home && a.ctx.time == ctx.time)
      && (a.outcome == Stale ==> !Current(ctx, home.stamp))
      && (a.outcome in {Nothing, Usage} ==> a.ctx == ctx)
  {
    hide LoadedBundle, Installed, WithDir, WithoutDir, SavedDoc, ConfigDoc, Wrong, RepoOf;
  }

  /** Two indexes give the same file only if they are the same. */
  lemma SavedDocInjective(m: Services, n: Services)
    requires Keyed(m) && Keyed(n) && SavedDoc(m) == SavedDoc(n)
    ensures m == n
  {
    SavedDocLoads(m);
    SavedDocLoads(n);
    assert ContextServices(SavedDoc(m), false) == ContextServices(SavedDoc(n), false);
  }
}
