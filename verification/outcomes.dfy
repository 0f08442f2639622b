/**
 How the calls of src/store/context.cpp end, and what a context that is opened afterwards finds.
 */
module Outcomes {
  import opened Text
  import opened Settings
  import opened Files
  import opened Store
  import opened Faithfulness

  predicate IsAdd(op: Op) {
    op.AddExport? || op.AddImport?
  }

  /** The service is of the other kind than the call is for. */
  predicate WrongKind(op: Op) {
    (op.AddExport? && !op.service.local) || (op.AddImport? && op.service.local)
  }

  /** Exactly how a call that edits services ends, for any context and any files. */
  lemma EditOutcome(home: Home, ctx: Ctx, op: Op)
    requires IsEdit(op)
    ensures var outcome := Exec(home, ctx, op).outcome;
      var id := PierOf(op, ctx.config.pier);
      var known := id in ctx.bundle;
      var has := known && NameOf(op) in ctx.bundle[id];
      var writes := known && !WrongKind(op) && (IsAdd(op) <==> !has);
      && (outcome == Usage <==> WrongKind(op) || !known || (IsAdd(op) && has))
      && (outcome == Nothing <==> known && !IsAdd(op) && !has)
      && (outcome == Stale <==> writes && !Current(ctx, home.stamp))
      && (outcome == Failed <==> writes && Current(ctx, home.stamp) && id !in RepoOf(home.disk, ctx.config.repo))
      && (outcome == Done <==> writes && Current(ctx, home.stamp) && id in RepoOf(home.disk, ctx.config.repo))
  {
    hide SavedDoc, WithDir, RepoOf;
  }

  /** The same for set_config; `wrong` matters for a new local pier only. */
  lemma SetConfigOutcome(home: Home, ctx: Ctx, info: Config, minted: string, wrong: bool)
    ensures var outcome := Exec(home, ctx, SetConfig(info, minted, wrong)).outcome;
      var same := info.pier == ctx.config.pier;
      && (outcome == Usage <==> !same && wrong)
      && (outcome == Stale <==> (same || !wrong) && !Current(ctx, home.stamp))
      && (outcome == Failed <==> !same && !wrong && Current(ctx, home.stamp) && info.repo == "")
      && (outcome == Done <==> Current(ctx, home.stamp) && (same || (!wrong && info.repo != "")))
  {
    hide ConfigDoc, Installed, LoadedBundle;
  }

  /** The same for the calls about piers and certificates. */
  lemma PierOutcome(home: Home, ctx: Ctx, pier: string, cert: string)
    ensures var outcome := Exec(home, ctx, AddPier(pier, cert)).outcome;
      && (outcome == Stale <==> !Current(ctx, home.stamp))
      && (outcome == Refused <==> Current(ctx, home.stamp) && pier in RepoOf(home.disk, ctx.config.repo))
      && (outcome == Done <==> Current(ctx, home.stamp) && pier !in RepoOf(home.disk, ctx.config.repo))
    ensures var outcome := Exec(home, ctx, DelPier(pier)).outcome;
      && (outcome == Usage <==> pier == ctx.config.pier)
      && (outcome == Stale <==> pier != ctx.config.pier && !Current(ctx, home.stamp))
      && (outcome == Done <==> pier != ctx.config.pier && Current(ctx, home.stamp))
    ensures Exec(home, ctx, ReadCert(pier)).outcome == if Current(ctx, home.stamp) then Nothing else Stale
  {
    hide RepoOf, WithDir, WithoutDir;
  }

  /** A stale call has changed configuration and index as if it had not been refused; the files know nothing of it. */
  lemma StaleKeepsEdit(home: Home, ctx: Ctx, op: Op)
    requires Exec(home, ctx, op).outcome == Stale
    ensures var a := Exec(home, ctx, op);
      && a.home == home && a.ctx.time == ctx.time
      && match op
         case SetConfig(info, _, _) =>
           && a.ctx.config == info
           && a.ctx.bundle == if info.pier == ctx.config.pier then ctx.bundle else map[info.pier := map[]]
         case AddPier(_, _) => a.ctx == ctx
         case DelPier(_) => a.ctx == ctx
         case ReadCert(_) => a.ctx == ctx
         case _ =>
           var id := PierOf(op, ctx.config.pier);
           && id in ctx.bundle && a.ctx.config == ctx.config
           && a.ctx.bundle == ctx.bundle[id := Edited(op, ctx.bundle[id])]
  {
    hide RepoOf, WithDir, WithoutDir, SavedDoc, ConfigDoc, Installed, LoadedBundle;
  }

  /** What a context that agrees with the disk knows is what is there: piers with a certificate, their services. */
  lemma KnownIsThere(ctx: Ctx, d: Disk, id: string)
    requires Agrees(ctx, d)
    ensures id in ctx.bundle <==> DirOf(d, ConfigOn(d).repo, id).cert.Some?
    ensures id in ctx.bundle ==> ctx.bundle[id] == ServicesOn(d, id)
  {
    hide ContextServices, ContextConfig;
  }

  // ---------------------------------------------------------------------------------------------------------
  // What is found afterwards
  // ---------------------------------------------------------------------------------------------------------

  /** After a successful edit a context finds this one service changed and everything else as before. */
  lemma EditFound(home: Home, ctx: Ctx, op: Op)
    requires Agrees(ctx, home.disk) && Current(ctx, home.stamp) && IsEdit(op) && Exec(home, ctx, op).outcome == Done
    ensures var id, name := PierOf(op, ctx.config.pier), NameOf(op);
      var found := Open(Exec(home, ctx, op).home.disk);
      && id in ctx.bundle && found.Ok?
      && found.value.config == WithoutNetwork(ctx.config)
      && found.value.bundle.Keys == ctx.bundle.Keys
      && (forall other :: other in ctx.bundle && other != id ==> found.value.bundle[other] == ctx.bundle[other])
      && (if IsAdd(op) then name !in ctx.bundle[id] && found.value.bundle[id] == ctx.bundle[id][name := op.service]
          else name in ctx.bundle[id] && found.value.bundle[id] == ctx.bundle[id] - {name})
  {
    hide Agrees, Open, Exec, ContextConfig, WithServices;
    ExecAgrees(home, ctx, op);
    EditOutcome(home, ctx, op);
    EditKept(home, ctx, op);
    AgreesFinds(Exec(home, ctx, op).ctx, Exec(home, ctx, op).home.disk);
  }

  lemma EditKept(home: Home, ctx: Ctx, op: Op)
    requires IsEdit(op) && Exec(home, ctx, op).outcome == Done
    ensures var a := Exec(home, ctx, op); var id := PierOf(op, ctx.config.pier);
      && id in ctx.bundle && a.ctx.config == ctx.config
      && a.ctx.bundle == ctx.bundle[id := Edited(op, ctx.bundle[id])]
  {
    hide SavedDoc, WithDir, RepoOf;
  }

  lemma AgreesFinds(ctx: Ctx, d: Disk)
    requires Agrees(ctx, d)
    ensures Open(d) == Ok(Ctx(WithoutNetwork(ctx.config), ctx.bundle, None))
  {
    hide LoadedBundle, ContextConfig;
  }

  /** After a successful edit all certificates and keys are as before, and no directory has come or gone. */
  lemma EditKeepsFiles(home: Home, ctx: Ctx, op: Op, repo: string, id: string)
    requires IsEdit(op) && Exec(home, ctx, op).outcome == Done
    ensures var e := Exec(home, ctx, op).home.disk;
      && e.conf == home.disk.conf
      && (id in RepoOf(e, repo) <==> id in RepoOf(home.disk, repo))
      && DirOf(e, repo, id).cert == DirOf(home.disk, repo, id).cert
      && DirOf(e, repo, id).key == DirOf(home.disk, repo, id).key
      && (repo != ctx.config.repo || id != PierOf(op, ctx.config.pier) ==>
           DirOf(e, repo, id) == DirOf(home.disk, repo, id))
  {
    hide SavedDoc;
  }

  /** After set_config for the same pier a context finds the new configuration and the same services. */
  lemma SetConfigFound(home: Home, ctx: Ctx, info: Config, minted: string, wrong: bool)
    requires Agrees(ctx, home.disk) && Current(ctx, home.stamp) && Fits(SetConfig(info, minted, wrong), ctx, home.disk)
    requires Exec(home, ctx, SetConfig(info, minted, wrong)).outcome == Done && info.pier == ctx.config.pier
    ensures var e := Exec(home, ctx, SetConfig(info, minted, wrong)).home.disk;
      && Open(e) == Ok(Ctx(WithoutNetwork(info), ctx.bundle, None))
      && e.repos == home.disk.repos
  {
    hide ConfigDoc, ContextServices, ContextConfig, LoadedBundle, Agrees;
    SetConfigAgrees(home, ctx, info, minted, wrong);
    var a := Exec(home, ctx, SetConfig(info, minted, wrong));
    AgreesFinds(a.ctx, a.home.disk);
  }

  /**
   After set_config for a new local pier a context finds the new configuration and what the new repository holds:
   the piers with a certificate and the local one, with the services of their files. The local pier has a key pair,
   its own if it had one.
   */
  lemma InstallFound(home: Home, ctx: Ctx, info: Config, minted: string, wrong: bool)
    requires Agrees(ctx, home.disk) && Current(ctx, home.stamp) && Fits(SetConfig(info, minted, wrong), ctx, home.disk)
    requires Exec(home, ctx, SetConfig(info, minted, wrong)).outcome == Done && info.pier != ctx.config.pier
    ensures var e := Exec(home, ctx, SetConfig(info, minted, wrong)).home.disk;
      var had, has := DirOf(home.disk, info.repo, info.pier), DirOf(e, info.repo, info.pier);
      && Open(e).Ok? && Open(e).value.config == WithoutNetwork(info)
      && (forall id :: id in Open(e).value.bundle <==> id == info.pier || DirOf(home.disk, info.repo, id).cert.Some?)
      && (forall id :: id in Open(e).value.bundle ==>
           Open(e).value.bundle[id] == ContextServices(DocOf(DirOf(home.disk, info.repo, id)), id == info.pier))
      && has == (if had.key then had else had.(cert := Some(minted), key := true))
      && has.cert.Some? && has.key
      && (forall repo, id :: repo != info.repo || id != info.pier ==> DirOf(e, repo, id) == DirOf(home.disk, repo, id))
  {
    hide ConfigDoc, ContextServices, ContextConfig;
    ConfigRoundTrip(info);
    var e := Installed(home.disk, info, minted);
    assert Exec(home, ctx, SetConfig(info, minted, wrong)).home.disk == e;
    InstallKeeps(home.disk, info, minted);
  }

  lemma InstallKeeps(d: Disk, info: Config, minted: string)
    requires info.repo != "" && !Wrong(d, info)
    ensures var e := Installed(d, info, minted);
      var had, has := DirOf(d, info.repo, info.pier), DirOf(e, info.repo, info.pier);
      && has == (if had.key then had else had.(cert := Some(minted), key := true))
      && has.cert.Some? && has.key
      && (forall repo, id :: repo != info.repo || id != info.pier ==> DirOf(e, repo, id) == DirOf(d, repo, id))
  {
    hide ConfigDoc;
  }

  /** After a pier was added a context finds it with its certificate and no services, or finds it gone. */
  lemma PierFound(home: Home, ctx: Ctx, op: Op)
    requires Agrees(ctx, home.disk) && Current(ctx, home.stamp) && Fits(op, ctx, home.disk)
    requires (op.AddPier? || op.DelPier?) && Exec(home, ctx, op).outcome == Done
    ensures var e := Exec(home, ctx, op).home.disk; var repo := ctx.config.repo;
      && Open(e).Ok? && Open(e).value.config == WithoutNetwork(ctx.config)
      && (if op.AddPier? then
            && Open(e).value.bundle == ctx.bundle[op.pier := map[]]
            && DirOf(e, repo, op.pier) == PierDir(Some(op.cert), false, None)
          else
            Open(e).value.bundle == ctx.bundle - {op.pier} && op.pier !in RepoOf(e, repo))
      && (forall other, id :: other != repo || id != op.pier ==> DirOf(e, other, id) == DirOf(home.disk, other, id))
  {
    hide Agrees, ContextConfig, ContextServices, LoadedBundle;
    PierAgrees(home, ctx, op);
    PierIndex(home, ctx, op);
    AgreesFinds(Exec(home, ctx, op).ctx, Exec(home, ctx, op).home.disk);
  }

  lemma PierIndex(home: Home, ctx: Ctx, op: Op)
    requires Agrees(ctx, home.disk) && (op.AddPier? || op.DelPier?) && Exec(home, ctx, op).outcome == Done
    ensures var a := Exec(home, ctx, op);
      && a.ctx.config == ctx.config
      && a.ctx.bundle == if op.AddPier? then ctx.bundle[op.pier := map[]] else ctx.bundle - {op.pier}
  {
    hide ContextConfig, ContextServices;
    KnownIsThere(ctx, home.disk, op.pier);
  }
}
