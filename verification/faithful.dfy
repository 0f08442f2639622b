/**
 When a call of src/store/context.cpp that succeeds does to the files what the operation means. A context that has
 not written yet is not checked, so its configuration and its index may be those of any earlier time.
 */
module Faithfulness {
  import opened Text
  import opened Settings
  import opened Files
  import opened Store

  /** The index of a context holds every service under its name. */
  predicate Indexed(ctx: Ctx) {
    forall id :: id in ctx.bundle ==> Keyed(ctx.bundle[id])
  }

  predicate IsEdit(op: Op) {
    op.AddExport? || op.DelExport? || op.AddImport? || op.DelImport?
  }

  /** The pier whose file an operation on services edits, for a given local pier. */
  function PierOf(op: Op, local: string): string
    requires IsEdit(op)
  {
    if op.AddImport? then op.service.pier else if op.DelImport? then op.pier else local
  }

  function NameOf(op: Op): string
    requires IsEdit(op)
  {
    if op.AddExport? || op.AddImport? then op.service.name else op.name
  }

  function Edited(op: Op, services: Services): Services
    requires IsEdit(op)
  {
    if op.AddExport? || op.AddImport? then services[op.service.name := op.service] else services - {op.name}
  }

  /** The file of the pier is already what saving these services would make it. */
  predicate IsSaved(d: Disk, repo: string, id: string, services: Services) {
    repo == "" || (id in RepoOf(d, repo) && RepoOf(d, repo)[id].conf == Some(SavedDoc(services)))
  }

  /**
   The condition on configuration, index and files. A service is edited where the configuration file has its pier,
   and the index agrees with the pier's file on all other services; or else neither edit changes anything. Piers are
   added and removed in the repository of the configuration file. A configuration is stored as one for a new pier by
   context and file alike, or the pier is there already.
   */
  predicate Faithful(d: Disk, ctx: Ctx, op: Op) {
    var config := ConfigOn(d);
    match op
    case SetConfig(info, _, _) =>
      || (info.pier == ctx.config.pier <==> info.pier == config.pier)
      || info.repo == ""
      || (info.pier in RepoOf(d, info.repo)
         && (RepoOf(d, info.repo)[info.pier].cert.Some? || RepoOf(d, info.repo)[info.pier].key))
    case AddPier(pier, cert) =>
      || ctx.config.repo == config.repo
      || (ctx.config.repo == "" && pier in RepoOf(d, config.repo)
         && RepoOf(d, config.repo)[pier] == PierDir(Some(cert), false, None))
    case DelPier(pier) =>
      || ctx.config.repo == config.repo
      || (pier !in RepoOf(d, ctx.config.repo) && pier !in RepoOf(d, config.repo))
    case ReadCert(_) => true
    case _ =>
      var mine, theirs := PierOf(op, ctx.config.pier), PierOf(op, config.pier);
      if mine !in ctx.bundle then true
      else if ctx.config.repo == config.repo && mine == theirs
      then ctx.bundle[mine] - {NameOf(op)} == ServicesOn(d, mine) - {NameOf(op)}
      else
        && IsSaved(d, ctx.config.repo, mine, Edited(op, ctx.bundle[mine]))
        && IsSaved(d, config.repo, theirs, Edited(op, ServicesOn(d, theirs)))
  }

  // ---------------------------------------------------------------------------------------------------------
  // Two writes to the same disk
  // ---------------------------------------------------------------------------------------------------------

  /** A write to a directory changes nothing exactly when the directory is there with that content. */
  lemma NoChange(d: Disk, repo: string, id: string, dir: PierDir)
    ensures WithDir(d, repo, id, dir) == d <==> repo == "" || (id in RepoOf(d, repo) && RepoOf(d, repo)[id] == dir)
  {
    var e := WithDir(d, repo, id, dir);
    if repo != "" {
      assert e.repos[repo][id] == dir;
      if id in RepoOf(d, repo) && RepoOf(d, repo)[id] == dir {
        assert RepoOf(d, repo)[id := dir] == RepoOf(d, repo);
        assert d.repos[repo := RepoOf(d, repo)] == d.repos;
      }
    }
  }

  /** Writes to different places have the same result exactly when neither changes anything. */
  lemma ApartWrites(d: Disk, repo: string, id: string, dir: PierDir, repo': string, id': string, dir': PierDir)
    requires repo != repo' || id != id'
    ensures WithDir(d, repo, id, dir) == WithDir(d, repo', id', dir') <==>
      WithDir(d, repo, id, dir) == d && WithDir(d, repo', id', dir') == d
  {
    var e, f := WithDir(d, repo, id, dir), WithDir(d, repo', id', dir');
    if e == f {
      NoChange(d, repo, id, dir);
      NoChange(d, repo', id', dir');
      assert repo != "" ==> id in RepoOf(e, repo) && RepoOf(e, repo)[id] == dir;
      assert repo' != "" ==> id' in RepoOf(f, repo') && RepoOf(f, repo')[id'] == dir';
      var r, r' := RepoOf(d, repo), RepoOf(d, repo');
      assert repo != "" ==> (id in RepoOf(f, repo) <==> id in r) && (id in r ==> RepoOf(f, repo)[id] == r[id]);
      assert repo' != "" ==>
        (id' in RepoOf(e, repo') <==> id' in r') && (id' in r' ==> RepoOf(e, repo')[id'] == r'[id']);
    }
  }

  /** Two files of one pier are the same exactly when their services are. */
  lemma SameFile(d: Disk, repo: string, id: string, m: Services, n: Services)
    requires repo != "" && Keyed(m) && Keyed(n)
    ensures var dir := DirOf(d, repo, id);
      var e := WithDir(d, repo, id, dir.(conf := Some(SavedDoc(m))));
      var f := WithDir(d, repo, id, dir.(conf := Some(SavedDoc(n))));
      e == f <==> m == n
  {
    hide SavedDoc, Keyed;
    var dir := DirOf(d, repo, id);
    var e := WithDir(d, repo, id, dir.(conf := Some(SavedDoc(m))));
    var f := WithDir(d, repo, id, dir.(conf := Some(SavedDoc(n))));
    if e == f {
      assert e.repos[repo][id].conf == f.repos[repo][id].conf;
      SavedDocInjective(m, n);
    }
  }

  /** An edit gives the same services from two indexes exactly when these agree on all other names. */
  lemma SameEdit(op: Op, m: Services, n: Services)
    requires IsEdit(op)
    ensures Edited(op, m) == Edited(op, n) <==> m - {NameOf(op)} == n - {NameOf(op)}
  {
    var name := NameOf(op);
    if op.AddExport? || op.AddImport? {
      assert (m - {name})[name := op.service] == m[name := op.service];
      assert (n - {name})[name := op.service] == n[name := op.service];
      assert m[name := op.service] - {name} == m - {name};
      assert n[name := op.service] - {name} == n - {name};
    }
  }

  // ---------------------------------------------------------------------------------------------------------
  // Faithful calls
  // ---------------------------------------------------------------------------------------------------------

  lemma EditDone(home: Home, ctx: Ctx, op: Op)
    requires IsEdit(op)
    ensures var a := Exec(home, ctx, op); var mine := PierOf(op, ctx.config.pier); var repo := ctx.config.repo;
      a.outcome == Done ==>
        && mine in ctx.bundle && mine in RepoOf(home.disk, repo)
        && var dir := RepoOf(home.disk, repo)[mine];
           a.home.disk == WithDir(home.disk, repo, mine, dir.(conf := Some(SavedDoc(Edited(op, ctx.bundle[mine])))))
  {
    hide SavedDoc, WithDir;
  }

  lemma EditEffect(d: Disk, op: Op)
    requires IsEdit(op)
    ensures var config := ConfigOn(d); var id := PierOf(op, config.pier);
      var dir := DirOf(d, config.repo, id);
      && Effect(d, op) == WithDir(d, config.repo, id, dir.(conf := Some(SavedDoc(Edited(op, ServicesOn(d, id))))))
      && Keyed(ServicesOn(d, id)) && Keyed(Edited(op, ServicesOn(d, id)))
  {
    hide SavedDoc, WithDir, ServicesOn, ConfigOn;
    KeyedOn(d, PierOf(op, ConfigOn(d).pier));
  }

  lemma KeyedOn(d: Disk, id: string)
    ensures Keyed(ServicesOn(d, id))
  {
    hide ContextServices, Open;
    ContextServicesKeyed(DocOf(DirOf(d, ConfigOn(d).repo, id)), id == ConfigOn(d).pier);
  }

  lemma EditFaithful(home: Home, ctx: Ctx, op: Op)
    requires IsEdit(op) && Indexed(ctx) && Exec(home, ctx, op).outcome == Done
    ensures Exec(home, ctx, op).home.disk == Effect(home.disk, op) <==> Faithful(home.disk, ctx, op)
  {
    hide Exec, Effect, ServicesOn, ConfigOn, WithDir, SavedDoc;
    var d, config := home.disk, ConfigOn(home.disk);
    var mine, theirs := PierOf(op, ctx.config.pier), PierOf(op, config.pier);
    EditDone(home, ctx, op);
    EditEffect(d, op);
    var m, n := Edited(op, ctx.bundle[mine]), Edited(op, ServicesOn(d, theirs));
    if ctx.config.repo == config.repo && mine == theirs {
      assert Keyed(ctx.bundle[mine]);
      SameFile(d, config.repo, mine, m, n);
      SameEdit(op, ctx.bundle[mine], ServicesOn(d, mine));
    } else {
      var x := DirOf(d, ctx.config.repo, mine).(conf := Some(SavedDoc(m)));
      var y := DirOf(d, config.repo, theirs).(conf := Some(SavedDoc(n)));
      ApartWrites(d, ctx.config.repo, mine, x, config.repo, theirs, y);
      NoChange(d, ctx.config.repo, mine, x);
      NoChange(d, config.repo, theirs, y);
    }
  }

  lemma SetConfigFaithful(home: Home, ctx: Ctx, op: Op)
    requires op.SetConfig? && Exec(home, ctx, op).outcome == Done
    ensures Exec(home, ctx, op).home.disk == Effect(home.disk, op) <==> Faithful(home.disk, ctx, op)
  {
    hide ConfigOn, ConfigDoc, WithDir, LoadedBundle;
    var d := home.disk;
    var info := op.info;
    var dir := DirOf(d, info.repo, info.pier);
    var full := if dir.cert.None? && !dir.key then dir.(cert := Some(op.minted), key := true) else dir;
    NoChange(d, info.repo, info.pier, full);
    ConfKept(d, info.repo, info.pier, full);
  }

  lemma ConfKept(d: Disk, repo: string, id: string, dir: PierDir)
    ensures WithDir(d, repo, id, dir).conf == d.conf
  {
  }

  lemma AddPierFaithful(home: Home, ctx: Ctx, pier: string, cert: string)
    requires Exec(home, ctx, AddPier(pier, cert)).outcome == Done
    ensures Exec(home, ctx, AddPier(pier, cert)).home.disk == Effect(home.disk, AddPier(pier, cert))
      <==> Faithful(home.disk, ctx, AddPier(pier, cert))
  {
    hide ConfigOn, WithDir;
    var d, repo, dir := home.disk, ConfigOn(home.disk).repo, PierDir(Some(cert), false, None);
    if ctx.config.repo != repo {
      ApartWrites(d, ctx.config.repo, pier, dir, repo, pier, dir);
      NoChange(d, ctx.config.repo, pier, dir);
      NoChange(d, repo, pier, dir);
    }
  }

  lemma DelPierFaithful(home: Home, ctx: Ctx, pier: string)
    requires Exec(home, ctx, DelPier(pier)).outcome == Done
    ensures Exec(home, ctx, DelPier(pier)).home.disk == Effect(home.disk, DelPier(pier))
      <==> Faithful(home.disk, ctx, DelPier(pier))
  {
    hide ConfigOn;
    var d, mine, theirs := home.disk, ctx.config.repo, ConfigOn(home.disk).repo;
    var e, f := WithoutDir(d, mine, pier), WithoutDir(d, theirs, pier);
    if mine != theirs && e == f {
      assert RepoOf(e, mine) == RepoOf(d, mine) - {pier} && RepoOf(f, mine) == RepoOf(d, mine);
      assert RepoOf(f, theirs) == RepoOf(d, theirs) - {pier} && RepoOf(e, theirs) == RepoOf(d, theirs);
    }
  }

  /**
   A call that succeeds, by a context whose configuration and index may be out of date in any way, does to the files
   what the operation means if and only if the condition holds.
   */
  lemma ExecFaithful(home: Home, ctx: Ctx, op: Op)
    requires Indexed(ctx) && Exec(home, ctx, op).outcome == Done
    ensures Exec(home, ctx, op).home.disk == Effect(home.disk, op) <==> Faithful(home.disk, ctx, op)
  {
    hide Exec, Effect, Faithful;
    match op
    case SetConfig(_, _, _) => SetConfigFaithful(home, ctx, op);
    case AddPier(pier, cert) => AddPierFaithful(home, ctx, pier, cert);
    case DelPier(pier) => DelPierFaithful(home, ctx, pier);
    case ReadCert(pier) => ReadsNothing(home, ctx, pier);
    case _ => EditFaithful(home, ctx, op);
  }

  lemma ReadsNothing(home: Home, ctx: Ctx, pier: string)
    ensures Exec(home, ctx, ReadCert(pier)).outcome != Done
  {
  }

  /** A call that does not succeed leaves the files alone, whatever the context holds. */
  lemma OnlyDoneWrites(home: Home, ctx: Ctx, op: Op)
    requires Exec(home, ctx, op).outcome != Done
    ensures Exec(home, ctx, op).home.disk == home.disk
  {
    hide WithDir, WithoutDir, Installed, LoadedBundle, RepoOf, SavedDoc, ConfigDoc;
  }

  lemma IndexedStays(home: Home, ctx: Ctx, op: Op)
    requires Indexed(ctx)
    ensures Indexed(Exec(home, ctx, op).ctx)
  {
    hide WithDir, WithoutDir, Installed, RepoOf, SavedDoc, ConfigDoc, LoadedBundle;
    forall d: Disk, config: Config, id: string | id in LoadedBundle(d, config)
      ensures Keyed(LoadedBundle(d, config)[id])
    {
      LoadedKeyed(d, config, id);
    }
  }

  lemma LoadedKeyed(d: Disk, config: Config, id: string)
    requires id in LoadedBundle(d, config)
    ensures Keyed(LoadedBundle(d, config)[id])
  {
    hide ContextServices, Keyed;
    ContextServicesKeyed(DocOf(RepoOf(d, config.repo)[id]), id == config.pier);
  }

  lemma OpenIndexed(d: Disk)
    requires Open(d).Ok?
    ensures Indexed(Open(d).value)
  {
    hide LoadedBundle, Keyed, ContextConfig;
    var ctx := Open(d).value;
    forall id | id in ctx.bundle ensures Keyed(ctx.bundle[id]) { LoadedKeyed(d, ctx.config, id); }
  }
}
