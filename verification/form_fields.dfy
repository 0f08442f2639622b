/**
 What a service form writes (src/ui/context.cpp): every field that it shows, to the file and from there to the
 connectors.
 */
module FormFields {
  import opened Text
  import opened Settings
  import opened Controllers
  import opened Handles
  import opened Files
  import opened EngineFiles
  import opened Forms
  import Connectors
  import Engines
  import Backends
  import Store
  import Outcomes
  import Hashes

  /** The form shows what it was made from, field by field. */
  predicate ShowsOrigin(f: Form) {
    && f.edit.name == f.origin.name && f.edit.pier == f.origin.pier && f.edit.address == f.origin.address
    && f.edit.gateway == f.origin.gateway && f.edit.rendezvous == f.origin.rendezvous
    && f.edit.proto == f.origin.proto && f.edit.role == f.origin.role && f.edit.route == f.origin.route
    && f.edit.autostart == f.origin.autostart && f.edit.obscure == f.origin.obscure
  }

  /** Storing a form that shows what it was made from changes nothing. */
  lemma UneditedIdles(w: World, f: Form, first: Env, second: Env)
    requires ShowsOrigin(f)
    ensures StoreForm(w, f, first, second) == Turned(w, f)
  {
    hide Announced, Added, Deleted;
  }

  /** The form is of a service as the store holds it, or of a new one. */
  predicate IsOf(ctx: Store.Ctx, f: Form) {
    if f.origin.name == "" then true
    else
      && Stored(f) && Anchored(ctx, f) && f.edit.local == f.origin.local
      && ctx.bundle[Source(ctx, f).pier][f.origin.name] == f.origin
  }

  /** The pier is known, and the name is free there or the service's own. */
  predicate CanStore(ctx: Store.Ctx, f: Form) {
    var id := Target(ctx, f);
    && id in ctx.bundle && f.edit.name != ""
    && (f.edit.name !in ctx.bundle[id] || (f.origin.name != "" && Handle(id, f.edit.name) == Source(ctx, f)))
  }

  /** Changing the services of one pier changes what the repository holds under that pier and nothing else. */
  lemma ChangeHolds(home: Store.Home, ctx: Store.Ctx, id: string, services: Services, h: Handle, s: Service)
    requires Settled(home, ctx) && id in ctx.bundle && Keyed(services) && "" !in services
    ensures var a := Store.Save(home, ctx.(bundle := ctx.bundle[id := services]), id);
      && a.outcome == Store.Done && Settled(a.home, a.ctx)
      && (Holds(Repository(a.home.disk), h, s) <==>
           if h.pier == id then h.service in services && services[h.service] == s
           else Holds(Repository(home.disk), h, s))
  {
    hide Store.Agrees, Store.WithServices, WrittenHome, Repository, ServicesOf, ConfiguredOn, NamedOn;
    ChangeSettles(home, ctx, id, services);
    Store.SaveAgrees(home, ctx, id, services);
    assert Store.Open(home.disk).Ok? by { OpenWhenAgrees(ctx, home.disk); }
    RewrittenIs(home.disk, id, services);
  }

  /** What the repository holds after the deletion that Store and Purge begin with. */
  lemma DeletedHolds(w: World, f: Form, h: Handle, s: Service)
    requires Settled(w.home, w.ctx) && Anchored(w.ctx, f)
    ensures var a := Deleted(w, f);
      && Settled(a.home, a.ctx)
      && (Holds(Repository(a.home.disk), h, s) <==>
           Holds(Repository(w.home.disk), h, s) && !(Stored(f) && h == Source(w.ctx, f)))
  {
    hide Settled, WrittenHome, Repository, Store.Agrees, Store.Save, ServicesOf;
    if Stored(f) {
      var id := Source(w.ctx, f).pier;
      var rest := w.ctx.bundle[id] - {f.origin.name};
      BundleHolds(w.home, w.ctx, id, h.service, s);
      ChangeHolds(w.home, w.ctx, id, rest, h, s);
      assert h.pier == id ==> h == Handle(id, h.service);
    }
  }

  lemma BundleHolds(home: Store.Home, ctx: Store.Ctx, id: string, name: string, s: Service)
    requires Settled(home, ctx) && id in ctx.bundle
    ensures Keyed(ctx.bundle[id]) && "" !in ctx.bundle[id] && WrittenHome(home.disk)
    ensures Holds(Repository(home.disk), Handle(id, name), s) <==> name in ctx.bundle[id] && ctx.bundle[id][name] == s
  {
    hide WrittenHome, Repository, Store.Agrees, ServicesOf;
    ServicesMatch(home, ctx, id);
  }

  lemma SettledIsWritten(home: Store.Home, ctx: Store.Ctx)
    requires Settled(home, ctx)
    ensures WrittenHome(home.disk)
  {
  }

  lemma AddedHolds(w: World, f: Form, h: Handle, s: Service)
    requires Settled(w.home, w.ctx) && f.edit.name != "" && Accepted(w.ctx, f)
    ensures var a := Added(w, f); var present := Handle(Target(w.ctx, f), f.edit.name);
      && Settled(a.home, a.ctx) && !Throws(a.outcome)
      && (Holds(Repository(a.home.disk), h, s) <==>
           if h == present then s == f.edit else Holds(Repository(w.home.disk), h, s))
  {
    hide Settled, WrittenHome, Repository, Store.Agrees, Store.Save, ServicesOf;
    var id := Target(w.ctx, f);
    var more := w.ctx.bundle[id][f.edit.name := f.edit];
    BundleHolds(w.home, w.ctx, id, h.service, s);
    ChangeHolds(w.home, w.ctx, id, more, h, s);
    assert h.pier == id ==> h == Handle(id, h.service);
  }

  /** After Store() the store holds exactly what the form shows, in every field, and all other services as before. */
  lemma StoreWrites(w: World, f: Form, first: Env, second: Env, h: Handle, s: Service)
    requires Settled(w.home, w.ctx) && IsOf(w.ctx, f) && CanStore(w.ctx, f)
    ensures var r := StoreForm(w, f, first, second);
      var present := Handle(Target(w.ctx, f), f.edit.name);
      && Settled(r.world.home, r.world.ctx)
      && r.form.origin == f.edit && r.form.edit == f.edit
      && (Holds(Repository(r.world.home.disk), h, s) <==>
           if h == present then s == f.edit
           else Holds(Repository(w.home.disk), h, s) && !(f.origin.name != "" && h == Source(w.ctx, f)))
  {
    hide Settled, WrittenHome, Repository, Store.Agrees, Deleted, Added, ServicesOf, LoadOne, Backends.Served, Holds;
    var present := Handle(Target(w.ctx, f), f.edit.name);
    if ShowsOrigin(f) {
      UneditedIdles(w, f, first, second);
      SettledIsWritten(w.home, w.ctx);
      BundleHolds(w.home, w.ctx, present.pier, present.service, s);
    } else {
      var v := After(w, Deleted(w, f));
      DeletedHolds(w, f, h, s);
      AcceptedAfter(w, f);
      AddedHolds(v, f, h, s);
      var u := After(v, Added(v, f));
      LoadsAll(u, f.origin.name, Target(w.ctx, f));
      ConfigStays(w, f);
      ConfigStays(v, f);
    }
  }

  lemma AcceptedAfter(w: World, f: Form)
    requires Settled(w.home, w.ctx) && IsOf(w.ctx, f) && CanStore(w.ctx, f)
    ensures Anchored(w.ctx, f) && (Stored(f) <==> f.origin.name != "")
    ensures Accepted(Deleted(w, f).ctx, f) && !Throws(Deleted(w, f).outcome)
    ensures Deleted(w, f).ctx.config == w.ctx.config
  {
    hide WrittenHome, Store.Agrees, Deleted, ConfiguredOn;
    DeleteSettles(w, f);
    AcceptedMeans(w, f);
    ServicesMatch(w.home, w.ctx, Target(w.ctx, f));
  }

  lemma LoadsAll(w: World, name: string, id: string)
    requires Settled(w.home, w.ctx)
    ensures !AdjustThrows(w, Handle(id, name))
  {
    hide WrittenHome, LoadOne, ConfiguredOn;
    LoadOneMeans(w.home.disk, Handle(id, name));
  }

  /** After Purge() the store holds all services as before but the one that the form was made from. */
  lemma PurgeWrites(w: World, f: Form, env: Env, h: Handle, s: Service)
    requires Settled(w.home, w.ctx) && Anchored(w.ctx, f)
    ensures var r := PurgeForm(w, f, env);
      && Settled(r.world.home, r.world.ctx)
      && r.form == f.(origin := EMPTY_SERVICE)
      && (Holds(Repository(r.world.home.disk), h, s) <==>
           Holds(Repository(w.home.disk), h, s) && !(Stored(f) && h == Source(w.ctx, f)))
  {
    hide Settled, WrittenHome, Repository, Deleted, Backends.Served, Holds, Store.Agrees;
    DeletedHolds(w, f, h, s);
    DeleteSettles(w, f);
  }

  // ---------------------------------------------------------------------------------------------------------
  // From the form to the connectors
  // ---------------------------------------------------------------------------------------------------------

  /** An adjust gives a configured service its connectors, with what is on disk, or none. */
  lemma AdjustEquips(w: World, id: Handle, env: Env, s: Service)
    requires WrittenHome(w.home.disk) && NamedOn(w.home.disk) && Holds(Repository(w.home.disk), id, s)
    requires Engines.Valid(w.backend.pool) && Engines.AllSound(w.backend.pool)
    requires Key(id) in w.backend.pool ==> w.backend.pool[Key(id)].handle == id
    ensures var now := Adjusted(w, id, env).backend.pool;
      var restarted := if Engines.Pooled(w.backend.pool, id) then Engines.Awake(w.backend.pool, id) else s.autostart;
      var before := Backends.BundleAt(w.backend.pool, Key(id));
      && Engines.Pooled(now, id)
      && Engines.Equipped(now[Key(id)].bundle, restarted, before, LoadConfig(w.home.disk).value, s, w.backend.served)
  {
    hide LoadOne, WrittenHome, NamedOn, Engines.PoolAfter, Engines.AllSound, Engines.Valid, Engines.Awake, LoadConfig;
    hide Engines.Equipped;
    var d := w.home.disk;
    assert ConfiguredOn(d, id) && Backends.ServiceOn(d, id) == s;
    Backends.LoadOneIs(d, id);
    Backends.LoadedConfig(d);
    var one := LoadOne(d, id).value;
    Engines.SingleEquips(Engines.Adjust, w.backend.pool, id, one.1, one.0, w.backend.served, env);
  }

  lemma AdjustIsSound(w: World, id: Handle, env: Env)
    requires Engines.AllSound(w.backend.pool)
    ensures Engines.AllSound(Adjusted(w, id, env).backend.pool)
  {
    hide LoadOne, Engines.PoolAfter, Engines.AllSound;
    var one := LoadOne(w.home.disk, id);
    if one.Ok? {
      Engines.SingleIsSound(Engines.Adjust, w.backend.pool, id, one.value.1, one.value.0, w.backend.served, env);
    }
  }

  /**
   After Store() of an edited form the service is pooled and either has no connectors or one for each pier that the
   form lists, with every field that it shows: an awake service stays awake, a new one or one under a new handle
   follows its autostart flag.
   */
  lemma StoreEquips(w: World, f: Form, first: Env, second: Env)
    requires Follows(w) && IsOf(w.ctx, f) && CanStore(w.ctx, f) && Anchored(w.ctx, f) && Distinct(w, f)
    requires !ShowsOrigin(f) && Engines.AllSound(w.backend.pool)
    ensures var r := StoreForm(w, f, first, second).world;
      var present := Handle(Target(w.ctx, f), f.edit.name);
      var known := f.origin.name != "" && present == Source(w.ctx, f);
      var restarted := if known then Engines.Awake(w.backend.pool, present) else f.edit.autostart;
      && Engines.Pooled(r.backend.pool, present)
      && LoadConfig(r.home.disk).Ok?
      && (var config := LoadConfig(r.home.disk).value;
         exists before, birth ::
           Engines.Equipped(r.backend.pool[Key(present)].bundle, restarted, before, config, f.edit, birth))
  {
    hide WrittenHome, Repository, Store.Agrees, Deleted, Added, LoadOne, Backends.Served, Holds, ConfiguredOn, NamedOn;
    hide Engines.Equipped, Engines.AllSound, Engines.Awake, Engines.Pooled, LoadConfig;
    var present, former := Handle(Target(w.ctx, f), f.edit.name), Handle(Target(w.ctx, f), f.origin.name);
    var v := After(w, Deleted(w, f));
    var u := After(v, Added(v, f));
    AcceptedAfter(w, f);
    AcceptedMeans(w, f);
    DeletedHolds(w, f, present, f.edit);
    AddedHolds(v, f, present, f.edit);
    LoadsAll(u, f.origin.name, Target(w.ctx, f));
    ConfigStays(w, f);
    ConfigStays(v, f);
    FollowsAre(w, f);
    assert Concerned(w, f, present) && Concerned(w, f, former);
    var t := if f.origin.name == f.edit.name then u else Adjusted(u, former, first);
    if f.origin.name != f.edit.name {
      AdjustMeans(u, former, first);
      AdjustIsSound(u, former, first);
    }
    KeyIsOwn(t.backend.pool, present);
    ConfigRead(u.home.disk);
    AdjustEquips(t, present, second, f.edit);
    StoreIs(w, f, first, second);
    assert StoreForm(w, f, first, second).world == Adjusted(t, present, second);
    KnownIsPooled(w, f);
  }

  /** The last adjust starts from what the first has left. */
  lemma StoreIs(w: World, f: Form, first: Env, second: Env)
    requires !ShowsOrigin(f) && !Throws(Deleted(w, f).outcome) && !Throws(Added(After(w, Deleted(w, f)), f).outcome)
    ensures var u := After(After(w, Deleted(w, f)), Added(After(w, Deleted(w, f)), f));
      StoreForm(w, f, first, second) == Announced(u, f, first, second)
  {
    hide Deleted, Added, Announced;
  }

  lemma KnownIsPooled(w: World, f: Form)
    requires Follows(w) && IsOf(w.ctx, f) && CanStore(w.ctx, f)
    ensures var present := Handle(Target(w.ctx, f), f.edit.name);
      Engines.Pooled(w.backend.pool, present) <==> f.origin.name != "" && present == Source(w.ctx, f)
  {
    hide WrittenHome, Store.Agrees, ConfiguredOn, Engines.Pooled;
    ServicesMatch(w.home, w.ctx, Target(w.ctx, f));
  }

  lemma ConfigRead(d: Disk)
    requires WrittenHome(d)
    ensures LoadConfig(d).Ok?
  {
  }

  lemma KeyIsOwn(pool: Engines.Pool, id: Handle)
    requires Engines.Valid(pool) && forall h: Handle :: Engines.Pooled(pool, h) && Key(h) == Key(id) ==> h == id
    ensures Key(id) in pool ==> pool[Key(id)].handle == id
  {
    if Key(id) in pool { assert Engines.Pooled(pool, pool[Key(id)].handle); }
  }

  // ---------------------------------------------------------------------------------------------------------
  // From the configuration to the connectors
  // ---------------------------------------------------------------------------------------------------------

  /** A pool that follows an unambiguous disk matches every disk with the same services. */
  lemma FollowsMatches(pool: Engines.Pool, d: Disk, e: Disk)
    requires WrittenHome(d) && WrittenHome(e) && Backends.Follows(pool, d) && UnambiguousOn(e)
    requires forall h: Handle :: ConfiguredOn(d, h) ==> ConfiguredOn(e, h)
    ensures Backends.Matches(pool, e)
  {
    hide ConfiguredOn, WrittenHome, Engines.Pooled;
  }

  lemma BulkIsSound(b: Backends.Backend, cmd: Engines.Command, d: Disk, env: Env)
    requires Engines.AllSound(b.pool) && WrittenHome(d)
    ensures Engines.AllSound(Backends.Served(b, Backends.All(cmd), d, env).pool)
    ensures Engines.Valid(Backends.Served(b, Backends.All(cmd), d, env).pool)
  {
    hide LoadAll, Engines.Built, WrittenHome, Connectors.Sound;
    ListingIsClean(d);
    var all := LoadAll(d).value;
    var now := Backends.Served(b, Backends.All(cmd), d, env).pool;
    Engines.BuiltKeys(cmd, b.pool, all.1, all.0, b.served, env);
    forall k, pier | k in now && pier in now[k].bundle ensures Connectors.Sound(now[k].bundle[pier]) {
      Engines.BulkConfigures(cmd, b.pool, all.1, all.0, b.served, env, k, pier);
    }
  }

  /** A service that is restarted, or made afresh, with the configuration and the entry on a disk. */
  ghost predicate RunsAs(pool: Engines.Pool, d: Disk, h: Handle, restarted: bool)
    requires WrittenHome(d) && ConfiguredOn(d, h)
  {
    && Engines.Pooled(pool, h)
    && exists before, birth ::
      Engines.Equipped(pool[Key(h)].bundle, restarted, before, LoadConfig(d).value, Backends.ServiceOn(d, h), birth)
  }

  /** After a new identity: unplugged and engaged, exactly the services that start by themselves run. */
  lemma RebootRuns(w: World, d: Disk, first: Env, second: Env, h: Handle)
    requires w.home.disk == d && WrittenHome(d) && UnambiguousOn(d) && ConfiguredOn(d, h)
    requires Engines.AllSound(w.backend.pool)
    ensures var now := Requested(Requested(w, Engines.Unplug, first), Engines.Engage, second).backend.pool;
      RunsAs(now, d, h, Backends.ServiceOn(d, h).autostart)
  {
    hide LoadAll, WrittenHome, Backends.Served, ConfiguredOn, UnambiguousOn, Backends.Follows, Backends.ServiceOn;
    hide Engines.AllSound, Engines.Valid, Engines.Equipped, LoadConfig, Backends.BundleAt, Engines.Pooled;
    var v := Requested(w, Engines.Unplug, first);
    BulkIsSound(w.backend, Engines.Unplug, d, first);
    Backends.BulkFollows(w.backend, Engines.Unplug, d, first);
    FollowsMatches(v.backend.pool, d, d);
    Backends.SoundEquips(v.backend, Engines.Engage, d, second, h);
  }

  /** ... and no carrier of the old one is left. */
  lemma RebootDrops(w: World, first: Env, second: Env, k: string, pier: string)
    requires LoadAll(w.home.disk).Ok?
    ensures var now := Requested(Requested(w, Engines.Unplug, first), Engines.Engage, second).backend.pool;
      k in now && pier in now[k].bundle ==> now[k].bundle[pier].tunnels == {}
  {
    hide LoadAll, Engines.Built;
    var v := Requested(w, Engines.Unplug, first);
    Backends.UnplugEmpties(w.backend, w.home.disk, first, k);
    Backends.ServedDescends(v.backend, Backends.All(Engines.Engage), w.home.disk, second);
  }

  /** For the same identity every service goes on as it was, with the new configuration. */
  lemma AdjustRuns(w: World, d: Disk, env: Env, h: Handle)
    requires w.home.disk == d && WrittenHome(d) && UnambiguousOn(d) && ConfiguredOn(d, h)
    requires Engines.AllSound(w.backend.pool) && Engines.Valid(w.backend.pool) && Backends.Matches(w.backend.pool, d)
    ensures var restarted :=
        if Engines.Pooled(w.backend.pool, h) then Engines.Awake(w.backend.pool, h)
        else Backends.ServiceOn(d, h).autostart;
      RunsAs(Requested(w, Engines.Adjust, env).backend.pool, d, h, restarted)
  {
    hide WrittenHome, Backends.Served, ConfiguredOn, UnambiguousOn, Backends.Matches, Backends.ServiceOn;
    hide Engines.AllSound, Engines.Valid, Engines.Equipped, LoadConfig, Backends.BundleAt, Engines.Pooled;
    hide Engines.Awake;
    Backends.SoundEquips(w.backend, Engines.Adjust, d, env, h);
  }

  /**
   After another configuration has been stored: for a new identity exactly the services of its repository that start
   by themselves run, without any carrier of the old one; for the same identity all services go on as they were. All
   that run have the configuration that was stored.
   */
  lemma StoreConfigRuns(w: World, actual: Config, base: string, symbols: seq<int32>, minted: string, first: Env,
                        second: Env, h: Handle, k: string, pier: string)
    requires Follows(w) && Engines.AllSound(w.backend.pool) && actual != w.ctx.config
    requires actual.pier == w.ctx.config.pier ==> actual.repo == w.ctx.config.repo
    requires var info := Rebased(actual, w.ctx.config, base, symbols);
      && WrittenRepo(RepoOf(w.home.disk, info.repo))
      && (actual.pier == w.ctx.config.pier || !Store.Wrong(w.home.disk, info))
    ensures var r := StoreConfig(w, actual, w.ctx.config, base, symbols, minted, first, second).0;
      var d, now := r.home.disk, r.backend.pool;
      && WrittenHome(d) && LoadConfig(d) == Ok(WithoutNetwork(Rebased(actual, w.ctx.config, base, symbols)))
      && (k in now && pier in now[k].bundle ==>
           && now[k].bundle[pier].config == LoadConfig(d).value
           && (actual.pier != w.ctx.config.pier ==> now[k].bundle[pier].tunnels == {}))
      && (UnambiguousOn(d) && ConfiguredOn(d, h) ==>
           if actual.pier != w.ctx.config.pier then RunsAs(now, d, h, Backends.ServiceOn(d, h).autostart)
           else Engines.Pooled(w.backend.pool, h) && RunsAs(now, d, h, Engines.Awake(w.backend.pool, h)))
  {
    hide Store.Agrees, Store.Exec, WrittenHome, UnambiguousOn, Backends.Follows, Backends.Served, WrittenRepo, LoadAll;
    hide Hashes.TextHash, LoadConfig, Store.Wrong, ConfiguredOn, RunsAs, Engines.AllSound, Engines.Valid, Requested;
    hide Engines.Pooled, Engines.Awake, Connectors.Sound, Backends.Matches, NamedOn;
    var info := Rebased(actual, w.ctx.config, base, symbols);
    StoreConfigFollows(w, actual, base, symbols, minted, first, second);
    Outcomes.SetConfigOutcome(w.home, w.ctx, info, minted, Store.Wrong(w.home.disk, info));
    var v := After(w, Store.Exec(w.home, w.ctx, SetConfigOf(w.home.disk, info, minted)));
    var d := v.home.disk;
    RequestedKeeps(v, first, second);
    assert WrittenHome(d);
    ListingIsClean(d);
    if actual.pier != w.ctx.config.pier {
      if UnambiguousOn(d) && ConfiguredOn(d, h) { RebootRuns(v, d, first, second, h); }
      RebootDrops(v, first, second, k, pier);
      RebootConfigures(v, first, second, k, pier);
    } else {
      SameServices(w, info, minted);
      RequestConfigures(v, Engines.Adjust, first, k, pier);
      if UnambiguousOn(d) && ConfiguredOn(d, h) {
        FollowsMatches(w.backend.pool, w.home.disk, d);
        AdjustRuns(v, d, first, h);
        PooledBefore(w, h);
      }
    }
  }

  lemma PooledBefore(w: World, h: Handle)
    requires Follows(w) && ConfiguredOn(w.home.disk, h)
    ensures Engines.Pooled(w.backend.pool, h)
  {
    hide ConfiguredOn, Engines.Pooled;
  }

  lemma RequestedKeeps(w: World, first: Env, second: Env)
    ensures forall cmd :: Requested(w, cmd, first).home == w.home && Requested(w, cmd, first).ctx == w.ctx
    ensures var v := Requested(Requested(w, Engines.Unplug, first), Engines.Engage, second);
      v.home == w.home && v.ctx == w.ctx
  {
    hide Backends.Served;
  }

  lemma RequestConfigures(w: World, cmd: Engines.Command, env: Env, k: string, pier: string)
    requires Engines.AllSound(w.backend.pool) && LoadAll(w.home.disk).Ok?
    ensures var now := Requested(w, cmd, env).backend.pool;
      k in now && pier in now[k].bundle ==> now[k].bundle[pier].config == LoadConfig(w.home.disk).value
  {
    hide Backends.Served, LoadAll, LoadConfig, Engines.AllSound, Connectors.Sound;
    Backends.SoundConfigures(w.backend, cmd, w.home.disk, env, k, pier);
  }

  lemma RebootConfigures(w: World, first: Env, second: Env, k: string, pier: string)
    requires Engines.AllSound(w.backend.pool) && WrittenHome(w.home.disk) && LoadAll(w.home.disk).Ok?
    ensures var now := Requested(Requested(w, Engines.Unplug, first), Engines.Engage, second).backend.pool;
      k in now && pier in now[k].bundle ==> now[k].bundle[pier].config == LoadConfig(w.home.disk).value
  {
    hide Backends.Served, LoadAll, LoadConfig, Engines.AllSound, Connectors.Sound, WrittenHome;
    BulkIsSound(w.backend, Engines.Unplug, w.home.disk, first);
    RequestConfigures(Requested(w, Engines.Unplug, first), Engines.Engage, second, k, pier);
  }

  /** Storing a configuration for the same identity leaves the services alone. */
  lemma SameServices(w: World, info: Config, minted: string)
    requires Settled(w.home, w.ctx) && info.pier == w.ctx.config.pier && info.repo == w.ctx.config.repo
    ensures var d := Store.Exec(w.home, w.ctx, SetConfigOf(w.home.disk, info, minted)).home.disk;
      WrittenHome(d) && forall h: Handle :: ConfiguredOn(d, h) <==> ConfiguredOn(w.home.disk, h)
  {
    hide ContextServices, EngineConfig, ContextConfig, ConfigDoc, Store.Agrees, NamedOn, ServicesOf, WrittenRepo;
    ConfigRoundTrip(info);
    ConfigAgrees(w.ctx, w.home.disk);
  }
}
