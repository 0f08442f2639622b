/**
 How the user interface edits services (src/ui/context.cpp): a form changes the store and then has the backend adjust
 the handles it thinks are affected. Exceptions end Store() silently.
 */
module Forms {
  import opened Text
  import opened Settings
  import opened Handles
  import opened Files
  import opened EngineFiles
  import Controllers
  import Engines
  import Backends
  import Store
  import Outcomes
  import Hashes

  type Env = Engines.Env

  /** The shared home, the context of the user interface, and the backend. */
  datatype World = World(home: Store.Home, ctx: Store.Ctx, backend: Backends.Backend)

  /** The public fields of a ServiceImpl, and m_origin: what the store holds for it (no name: nothing yet). */
  datatype Form = Form(edit: Service, origin: Service)

  datatype Turned = Turned(world: World, form: Form)

  /** IsDirty(). */
  predicate Dirty(f: Form) {
    f.edit.(local := f.origin.local) != f.origin
  }

  /** The pier under which the store keeps a service. */
  function Place(ctx: Store.Ctx, local: bool, pier: string): string {
    if local then ctx.config.pier else pier
  }

  function Target(ctx: Store.Ctx, f: Form): string {
    Place(ctx, f.edit.local, f.edit.pier)
  }

  function Source(ctx: Store.Ctx, f: Form): Handle {
    Handle(Place(ctx, f.edit.local, f.origin.pier), f.origin.name)
  }

  /** There is something to delete from the store. */
  predicate Stored(f: Form) {
    f.origin.name != "" && (f.edit.local || f.origin.pier != "")
  }

  predicate Throws(outcome: Store.Outcome) {
    outcome.Usage? || outcome.Refused? || outcome.Failed? || outcome.Stale?
  }

  function Deleted(w: World, f: Form): Store.Answer {
    if !Stored(f) then Store.Answer(w.home, w.ctx, Store.Nothing)
    else
      var op := if f.edit.local then Store.DelExport(f.origin.name) else Store.DelImport(f.origin.pier, f.origin.name);
      Store.Exec(w.home, w.ctx, op)
  }

  function Added(w: World, f: Form): Store.Answer {
    Store.Exec(w.home, w.ctx, if f.edit.local then Store.AddExport(f.edit) else Store.AddImport(f.edit))
  }

  function After(w: World, a: Store.Answer): World {
    World(a.home, a.ctx, w.backend)
  }

  /** Backend::Adjust(id), which throws if the engine cannot load the service. */
  function Adjusted(w: World, id: Handle, env: Env): World {
    w.(backend := Backends.Served(w.backend, Backends.Only(Engines.Adjust, id), w.home.disk, env))
  }

  predicate AdjustThrows(w: World, id: Handle) {
    LoadOne(w.home.disk, id).Err?
  }

  /** The adjusts at the end of Store(), the first only after a renaming. */
  function Announced(w: World, f: Form, first: Env, second: Env): Turned {
    var former, present := Handle(Target(w.ctx, f), f.origin.name), Handle(Target(w.ctx, f), f.edit.name);
    if f.origin.name == f.edit.name then Turned(Adjusted(w, present, second), f.(origin := f.edit))
    else
      var v := Adjusted(w, former, first);
      if AdjustThrows(w, former) then Turned(v, f) else Turned(Adjusted(v, present, second), f.(origin := f.edit))
  }

  /** ServiceImpl::Store. */
  function StoreForm(w: World, f: Form, first: Env, second: Env): Turned {
    if !Dirty(f) then Turned(w, f)
    else
      var del := Deleted(w, f);
      if Throws(del.outcome) then Turned(After(w, del), f)
      else
        var add := Added(After(w, del), f);
        if Throws(add.outcome) then Turned(After(w, add), f)
        else Announced(After(w, add), f, first, second)
  }

  /** ServiceImpl::Purge; an exception of the store leaves it, one of the backend does not. */
  function PurgeForm(w: World, f: Form, env: Env): Turned {
    var del := Deleted(w, f);
    if Throws(del.outcome) then Turned(After(w, del), f)
    else Turned(Adjusted(After(w, del), Handle(Target(del.ctx, f), f.edit.name), env), f.(origin := EMPTY_SERVICE))
  }

  // ---------------------------------------------------------------------------------------------------------
  // What the engine finds after an edit of the store
  // ---------------------------------------------------------------------------------------------------------

  /** The context is current and agrees with a home that the store has written, where every service has a name. */
  ghost predicate Settled(home: Store.Home, ctx: Store.Ctx) {
    && Store.Agrees(ctx, home.disk) && Store.Current(ctx, home.stamp)
    && WrittenHome(home.disk) && NamedOn(home.disk)
  }

  lemma SameRepository(d: Disk)
    requires Store.Open(d).Ok? && WrittenHome(d)
    ensures Repository(d) == RepoOf(d, Store.ConfigOn(d).repo) && Store.ConfigOn(d).repo == LoadConfig(d).value.repo
  {
  }

  lemma ServicesMatch(home: Store.Home, ctx: Store.Ctx, id: string)
    requires Settled(home, ctx) && id in ctx.bundle
    ensures Keyed(ctx.bundle[id])
    ensures id in Repository(home.disk) && ServicesOf(Repository(home.disk)[id]) == ctx.bundle[id]
    ensures forall name :: ConfiguredOn(home.disk, Handle(id, name)) <==> name in ctx.bundle[id]
  {
    hide ContextServices, EngineConfig, ContextConfig;
    Store.AgreesKeyed(ctx, home.disk, id);
    SameRepository(home.disk);
    var dir := Repository(home.disk)[id];
    assert WrittenDir(dir);
    SavedDocLoads(ServicesOf(dir));
    NoServices(false);
    NoServices(true);
  }

  lemma RewrittenIs(d: Disk, id: string, services: Services)
    requires Store.Open(d).Ok? && WrittenHome(d) && Keyed(services)
    ensures var e := Store.WithServices(d, id, services);
      && WrittenHome(e) && id in Repository(e) && Repository(e) == Repository(d)[id := Repository(e)[id]]
      && ServicesOf(Repository(e)[id]) == services
  {
    hide ContextServices, EngineConfig, ContextConfig, SavedDoc;
    SameRepository(d);
    SavedDocLoads(services);
    var e := Store.WithServices(d, id, services);
    assert LoadConfig(e) == LoadConfig(d);
    assert WrittenDir(Repository(e)[id]);
  }

  /** Rewriting one pier file changes what is configured under that pier and nothing else. */
  lemma RewrittenMeans(d: Disk, id: string, services: Services)
    requires Store.Open(d).Ok? && WrittenHome(d) && Keyed(services)
    ensures var e := Store.WithServices(d, id, services);
      && WrittenHome(e)
      && forall h: Handle :: ConfiguredOn(e, h) <==> if h.pier == id then h.service in services else ConfiguredOn(d, h)
  {
    hide WrittenHome, Repository, ServicesOf, Store.WithServices, Store.Open;
    RewrittenIs(d, id, services);
  }

  /** A successful change of one pier's services leaves everything settled. */
  lemma ChangeSettles(home: Store.Home, ctx: Store.Ctx, id: string, services: Services)
    requires Settled(home, ctx) && id in ctx.bundle && Keyed(services) && "" !in services
    ensures var a := Store.Save(home, ctx.(bundle := ctx.bundle[id := services]), id);
      && a.outcome == Store.Done && Settled(a.home, a.ctx)
      && a.ctx == ctx.(bundle := ctx.bundle[id := services], time := a.ctx.time)
      && forall h: Handle ::
        ConfiguredOn(a.home.disk, h) <==> if h.pier == id then h.service in services else ConfiguredOn(home.disk, h)
  {
    hide Store.Agrees, Store.WithServices, ConfiguredOn, WrittenHome;
    Store.SaveAgrees(home, ctx, id, services);
    assert Store.Open(home.disk).Ok? by { OpenWhenAgrees(ctx, home.disk); }
    RewrittenMeans(home.disk, id, services);
  }

  lemma OpenWhenAgrees(ctx: Store.Ctx, d: Disk)
    requires Store.Agrees(ctx, d)
    ensures Store.Open(d).Ok?
  {
  }

  /** What the form deletes is in the store. */
  predicate Anchored(ctx: Store.Ctx, f: Form) {
    Stored(f) ==> Source(ctx, f).pier in ctx.bundle && f.origin.name in ctx.bundle[Source(ctx, f).pier]
  }

  lemma DeleteSettles(w: World, f: Form)
    requires Settled(w.home, w.ctx) && Anchored(w.ctx, f)
    ensures var a := Deleted(w, f);
      && !Throws(a.outcome) && Settled(a.home, a.ctx)
      && a.ctx.config == w.ctx.config && a.ctx.bundle.Keys == w.ctx.bundle.Keys
      && forall h: Handle ::
        ConfiguredOn(a.home.disk, h) <==> ConfiguredOn(w.home.disk, h) && !(Stored(f) && h == Source(w.ctx, f))
  {
    hide ConfiguredOn, WrittenHome, Store.Agrees, Store.Save;
    if Stored(f) {
      var id := Source(w.ctx, f).pier;
      var rest := w.ctx.bundle[id] - {f.origin.name};
      ServicesMatch(w.home, w.ctx, id);
      ChangeSettles(w.home, w.ctx, id, rest);
      assert forall h: Handle :: h.pier == id ==> h == Handle(id, h.service);
    }
  }

  /** The store accepts the edited service: its pier is known and has no other service of that name. */
  predicate Accepted(ctx: Store.Ctx, f: Form) {
    var id := Target(ctx, f);
    id in ctx.bundle && f.edit.name !in ctx.bundle[id]
  }

  lemma AddSettles(w: World, f: Form)
    requires Settled(w.home, w.ctx) && f.edit.name != ""
    ensures var a := Added(w, f);
      && Settled(a.home, a.ctx) && a.ctx.config == w.ctx.config
      && (Throws(a.outcome) <==> !Accepted(w.ctx, f))
      && (forall h: Handle :: ConfiguredOn(a.home.disk, h) <==>
           ConfiguredOn(w.home.disk, h) || (Accepted(w.ctx, f) && h == Handle(Target(w.ctx, f), f.edit.name)))
      && (Accepted(w.ctx, f) ==>
           var id := Target(w.ctx, f);
           a.ctx.bundle == w.ctx.bundle[id := w.ctx.bundle[id][f.edit.name := f.edit]])
  {
    hide ConfiguredOn, WrittenHome, Store.Agrees, Store.Save;
    if Accepted(w.ctx, f) {
      var id := Target(w.ctx, f);
      var more := w.ctx.bundle[id][f.edit.name := f.edit];
      ServicesMatch(w.home, w.ctx, id);
      ChangeSettles(w.home, w.ctx, id, more);
      assert forall h: Handle :: h.pier == id ==> h == Handle(id, h.service);
    }
  }

  // ---------------------------------------------------------------------------------------------------------
  // Pool and disk across an edit
  // ---------------------------------------------------------------------------------------------------------

  /** An adjust brings one handle of the pool up to date and touches no other. */
  lemma AdjustMeans(w: World, id: Handle, env: Env)
    requires WrittenHome(w.home.disk) && NamedOn(w.home.disk) && Engines.Valid(w.backend.pool)
    requires forall h: Handle :: Engines.Pooled(w.backend.pool, h) && Key(h) == Key(id) ==> h == id
    ensures !AdjustThrows(w, id)
    ensures var pool := Adjusted(w, id, env).backend.pool;
      && Engines.Valid(pool)
      && forall h: Handle ::
        Engines.Pooled(pool, h) <==>
          if h == id then ConfiguredOn(w.home.disk, id) else Engines.Pooled(w.backend.pool, h)
  {
    hide LoadOne, ConfiguredOn, WrittenHome, Engines.PoolAfter;
    LoadOneMeans(w.home.disk, id);
    var pool := w.backend.pool;
    var one := LoadOne(w.home.disk, id).value;
    Engines.SingleIsLocal(Engines.Adjust, pool, id, one.1, one.0, w.backend.served, env);
    if Key(id) in pool { assert Engines.Pooled(pool, pool[Key(id)].handle); }
  }

  /** The handles that an edit is about, with those configured before it. */
  predicate Concerned(w: World, f: Form, h: Handle)
    requires WrittenHome(w.home.disk)
  {
    || ConfiguredOn(w.home.disk, h)
    || (h.pier == Target(w.ctx, f) && h.service in {f.origin.name, f.edit.name})
  }

  ghost predicate Distinct(w: World, f: Form)
    requires WrittenHome(w.home.disk)
  {
    forall g: Handle, h: Handle :: Concerned(w, f, g) && Concerned(w, f, h) && Key(g) == Key(h) ==> g == h
  }

  /** A settled world whose pool holds exactly the configured services. */
  ghost predicate Follows(w: World) {
    && Settled(w.home, w.ctx) && Engines.Valid(w.backend.pool)
    && Backends.Follows(w.backend.pool, w.home.disk)
  }

  /**
   The store keeps the service where it was, if it was stored: an import is not moved to another pier, and a new
   name is not taken.
   */
  predicate Stays(ctx: Store.Ctx, f: Form)
    requires Anchored(ctx, f)
  {
    Stored(f) ==>
      && Target(ctx, f) == Source(ctx, f).pier
      && (f.edit.name == f.origin.name || f.edit.name !in ctx.bundle[Target(ctx, f)])
  }

  lemma AnnounceMeans(w: World, f: Form, first: Env, second: Env)
    requires WrittenHome(w.home.disk) && NamedOn(w.home.disk) && Engines.Valid(w.backend.pool)
    requires forall g: Handle, h: Handle ::
      (Engines.Pooled(w.backend.pool, g) || Concerned(w, f, g)) && Concerned(w, f, h) && Key(g) == Key(h) ==> g == h
    ensures var r := Announced(w, f, first, second);
      && r.world.home == w.home && r.world.ctx == w.ctx && r.form == f.(origin := f.edit)
      && Engines.Valid(r.world.backend.pool)
      && forall h: Handle :: Engines.Pooled(r.world.backend.pool, h) <==>
        if h.pier == Target(w.ctx, f) && h.service in {f.origin.name, f.edit.name}
        then ConfiguredOn(w.home.disk, h) else Engines.Pooled(w.backend.pool, h)
  {
    hide ConfiguredOn, WrittenHome, LoadOne, Backends.Served, Engines.Pooled;
    var former, present := Handle(Target(w.ctx, f), f.origin.name), Handle(Target(w.ctx, f), f.edit.name);
    assert Concerned(w, f, former) && Concerned(w, f, present);
    if f.origin.name == f.edit.name {
      AdjustMeans(w, present, second);
    } else {
      AdjustMeans(w, former, first);
      AdjustMeans(Adjusted(w, former, first), present, second);
    }
  }

  /**
   Store() keeps pool and disk together, renamings and new services included, if and only if the service stays
   where it is; whatever happens the context still agrees with the disk.
   */
  lemma StoreFollows(w: World, f: Form, first: Env, second: Env)
    requires Follows(w) && Anchored(w.ctx, f) && f.edit.name != "" && Distinct(w, f)
    ensures var r := StoreForm(w, f, first, second);
      Settled(r.world.home, r.world.ctx) && (Follows(r.world) <==> Stays(w.ctx, f))
  {
    hide ConfiguredOn, WrittenHome, LoadOne, Backends.Served, Deleted, Added, Announced, Store.Agrees, Engines.Pooled;
    if Dirty(f) {
      var v := After(w, Deleted(w, f));
      var u := After(v, Added(v, f));
      var gone, present := Source(w.ctx, f), Handle(Target(w.ctx, f), f.edit.name);
      DeleteSettles(w, f);
      AddSettles(v, f);
      AcceptedMeans(w, f);
      if Stored(f) { ServicesMatch(w.home, w.ctx, gone.pier); }
      if Accepted(v.ctx, f) {
        AnnounceMeans(u, f, first, second);
      }
    }
  }

  lemma AcceptedMeans(w: World, f: Form)
    requires Settled(w.home, w.ctx) && Anchored(w.ctx, f)
    ensures var present := Handle(Target(w.ctx, f), f.edit.name);
      Accepted(Deleted(w, f).ctx, f) <==>
        && present.pier in w.ctx.bundle
        && (!ConfiguredOn(w.home.disk, present) || (Stored(f) && present == Source(w.ctx, f)))
  {
    hide ConfiguredOn, WrittenHome, Store.Agrees, Deleted;
    var a := Deleted(w, f);
    DeleteSettles(w, f);
    if Target(w.ctx, f) in w.ctx.bundle { ServicesMatch(a.home, a.ctx, Target(w.ctx, f)); }
  }

  /** Purge() keeps pool and disk together if and only if the form still has the handle of what it deletes. */
  lemma PurgeFollows(w: World, f: Form, env: Env)
    requires Follows(w) && Anchored(w.ctx, f) && Distinct(w, f)
    ensures var r := PurgeForm(w, f, env);
      && Settled(r.world.home, r.world.ctx)
      && (Follows(r.world) <==> (Stored(f) ==> Handle(Target(w.ctx, f), f.edit.name) == Source(w.ctx, f)))
  {
    hide ConfiguredOn, WrittenHome, LoadOne, Backends.Served, Deleted, Store.Agrees, Engines.Pooled;
    var v := After(w, Deleted(w, f));
    var gone, present := Source(w.ctx, f), Handle(Target(w.ctx, f), f.edit.name);
    DeleteSettles(w, f);
    if Stored(f) { ServicesMatch(w.home, w.ctx, gone.pier); }
    assert Concerned(w, f, present);
    AdjustMeans(v, present, env);
  }

  // ---------------------------------------------------------------------------------------------------------
  // Services that go astray
  // ---------------------------------------------------------------------------------------------------------

  /** The backend still has the service under this handle, but it is not configured any more. */
  predicate Strays(w: World, h: Handle)
    requires WrittenHome(w.home.disk)
  {
    Engines.Pooled(w.backend.pool, h) && !ConfiguredOn(w.home.disk, h)
  }

  /**
   An import that is moved to another pier strays under its old handle; if the other pier accepts it, it is there and
   pooled a second time, and the form has forgotten the first.
   */
  lemma MovedImportStrays(w: World, f: Form, first: Env, second: Env)
    requires Follows(w) && Anchored(w.ctx, f) && f.edit.name != "" && Distinct(w, f)
    requires Stored(f) && !f.edit.local && f.edit.pier != f.origin.pier
    ensures var r := StoreForm(w, f, first, second); var present := Handle(f.edit.pier, f.edit.name);
      && Settled(r.world.home, r.world.ctx) && Strays(r.world, Source(w.ctx, f))
      && (Accepted(w.ctx, f) ==>
           && r.form.origin == f.edit
           && ConfiguredOn(r.world.home.disk, present) && Engines.Pooled(r.world.backend.pool, present))
  {
    hide ConfiguredOn, WrittenHome, LoadOne, Backends.Served, Deleted, Added, Announced, Store.Agrees, Engines.Pooled;
    var v := After(w, Deleted(w, f));
    var u := After(v, Added(v, f));
    DeleteSettles(w, f);
    AddSettles(v, f);
    AcceptedMeans(w, f);
    if Accepted(w.ctx, f) { AcceptedNow(w, f); }
    ServicesMatch(w.home, w.ctx, Source(w.ctx, f).pier);
    if Accepted(v.ctx, f) { AnnounceMeans(u, f, first, second); }
  }

  lemma AcceptedNow(w: World, f: Form)
    requires Settled(w.home, w.ctx) && Accepted(w.ctx, f)
    ensures !ConfiguredOn(w.home.disk, Handle(Target(w.ctx, f), f.edit.name))
  {
    hide ConfiguredOn, WrittenHome, Store.Agrees;
    ServicesMatch(w.home, w.ctx, Target(w.ctx, f));
  }

  /**
   A service that is renamed to a name already taken strays: the store has deleted it before it refuses the new name,
   the backend is not told, and the form shows nothing of it.
   */
  lemma RefusedRenameStrays(w: World, f: Form, first: Env, second: Env)
    requires Follows(w) && Anchored(w.ctx, f) && f.edit.name != "" && Stored(f)
    requires Target(w.ctx, f) == Source(w.ctx, f).pier && f.edit.name != f.origin.name
    requires f.edit.name in w.ctx.bundle[Target(w.ctx, f)]
    ensures var r := StoreForm(w, f, first, second);
      && Settled(r.world.home, r.world.ctx) && Strays(r.world, Source(w.ctx, f))
      && r.form == f && r.world.backend == w.backend
      && forall h: Handle ::
        ConfiguredOn(r.world.home.disk, h) <==> ConfiguredOn(w.home.disk, h) && h != Source(w.ctx, f)
  {
    hide ConfiguredOn, WrittenHome, LoadOne, Backends.Served, Deleted, Added, Announced, Store.Agrees, Engines.Pooled;
    var v := After(w, Deleted(w, f));
    DeleteSettles(w, f);
    AddSettles(v, f);
    AcceptedMeans(w, f);
    ServicesMatch(w.home, w.ctx, Target(w.ctx, f));
  }

  /** A service that is purged while its form shows another handle strays. */
  lemma RenamedPurgeStrays(w: World, f: Form, env: Env)
    requires Follows(w) && Anchored(w.ctx, f) && Distinct(w, f)
    requires Stored(f) && Handle(Target(w.ctx, f), f.edit.name) != Source(w.ctx, f)
    ensures var r := PurgeForm(w, f, env);
      Settled(r.world.home, r.world.ctx) && Strays(r.world, Source(w.ctx, f)) && r.form.origin == EMPTY_SERVICE
  {
    hide ConfiguredOn, WrittenHome, LoadOne, Backends.Served, Deleted, Store.Agrees, Engines.Pooled;
    DeleteSettles(w, f);
    ServicesMatch(w.home, w.ctx, Source(w.ctx, f).pier);
    assert Concerned(w, f, Handle(Target(w.ctx, f), f.edit.name));
    AdjustMeans(After(w, Deleted(w, f)), Handle(Target(w.ctx, f), f.edit.name), env);
  }

  /** An edit leaves every entry of the pool alone but those of the handles it announces. */
  lemma StoreIsLocal(w: World, f: Form, first: Env, second: Env, k: string)
    requires k != Key(Handle(Target(w.ctx, f), f.origin.name)) && k != Key(Handle(Target(w.ctx, f), f.edit.name))
    ensures var pool := StoreForm(w, f, first, second).world.backend.pool;
      (k in pool <==> k in w.backend.pool) && (k in pool ==> pool[k] == w.backend.pool[k])
  {
    hide Engines.PoolAfter, LoadOne, Announced, Deleted, Added;
    ConfigStays(w, f);
    ConfigStays(After(w, Deleted(w, f)), f);
    var u := After(After(w, Deleted(w, f)), Added(After(w, Deleted(w, f)), f));
    AnnounceIsLocal(u, f, first, second, k);
  }

  lemma ConfigStays(w: World, f: Form)
    ensures Deleted(w, f).ctx.config == w.ctx.config == Added(w, f).ctx.config
  {
    hide SavedDoc, Store.WithDir;
  }

  lemma AnnounceIsLocal(w: World, f: Form, first: Env, second: Env, k: string)
    requires k != Key(Handle(Target(w.ctx, f), f.origin.name)) && k != Key(Handle(Target(w.ctx, f), f.edit.name))
    ensures var pool := Announced(w, f, first, second).world.backend.pool;
      (k in pool <==> k in w.backend.pool) && (k in pool ==> pool[k] == w.backend.pool[k])
  {
    hide Backends.Served, LoadOne, Key;
    var former, present := Handle(Target(w.ctx, f), f.origin.name), Handle(Target(w.ctx, f), f.edit.name);
    assert k != Key(former) && k != Key(present);
    AdjustIsLocal(w, former, first, k);
    AdjustIsLocal(w, present, second, k);
    AdjustIsLocal(Adjusted(w, former, first), present, second, k);
  }

  lemma AdjustIsLocal(w: World, id: Handle, env: Env, k: string)
    requires k != Key(id)
    ensures var pool := Adjusted(w, id, env).backend.pool;
      (k in pool <==> k in w.backend.pool) && (k in pool ==> pool[k] == w.backend.pool[k])
  {
    hide Engines.PoolAfter, LoadOne;
    var one := LoadOne(w.home.disk, id);
    if one.Ok? {
      Engines.SingleIsLocal(Engines.Adjust, w.backend.pool, id, one.value.1, one.value.0, w.backend.served, env);
    }
  }

  /** What is configured after Store(): the service under its new handle instead of the old one, if it was accepted. */
  lemma StoreMeans(w: World, f: Form, first: Env, second: Env)
    requires Settled(w.home, w.ctx) && Anchored(w.ctx, f) && f.edit.name != ""
    ensures var r := StoreForm(w, f, first, second);
      && Settled(r.world.home, r.world.ctx)
      && forall h: Handle :: ConfiguredOn(r.world.home.disk, h) <==>
        if !Dirty(f) then ConfiguredOn(w.home.disk, h)
        else || (ConfiguredOn(w.home.disk, h) && !(Stored(f) && h == Source(w.ctx, f)))
             || (h == Handle(Target(w.ctx, f), f.edit.name) && h.pier in w.ctx.bundle)
  {
    hide ConfiguredOn, WrittenHome, LoadOne, Backends.Served, Deleted, Added, Store.Agrees;
    DeleteSettles(w, f);
    AddSettles(After(w, Deleted(w, f)), f);
    AcceptedMeans(w, f);
  }

  /** To store a new service and purge it again leaves the configuration and the pool's handles as they were. */
  lemma PurgeUndoesStore(w: World, f: Form, first: Env, second: Env, third: Env)
    requires Follows(w) && f.origin.name == "" && f.edit.name != "" && Distinct(w, f)
    requires Accepted(w.ctx, f) && (f.edit.local || f.edit.pier != "")
    ensures var r := StoreForm(w, f, first, second);
      && r.form.origin == f.edit && Anchored(r.world.ctx, r.form)
      && (var q := PurgeForm(r.world, r.form, third);
         && Follows(q.world)
         && (forall h: Handle :: ConfiguredOn(q.world.home.disk, h) <==> ConfiguredOn(w.home.disk, h)))
  {
    hide ConfiguredOn, WrittenHome, LoadOne, Backends.Served, Added, Store.Agrees, Announced, Store.Exec;
    var r := StoreForm(w, f, first, second);
    AddSettles(w, f);
    var u := After(w, Added(w, f));
    StoreFollows(w, f, first, second);
    StoreMeans(w, f, first, second);
    AcceptedMeans(w, f);
    FollowsAre(w, f);
    AnnounceMeans(u, f, first, second);
    assert !ConfiguredOn(w.home.disk, Source(w.ctx, r.form));
    PurgeFollows(r.world, r.form, third);
    DeleteSettles(r.world, r.form);
  }

  lemma FollowsAre(w: World, f: Form)
    requires Follows(w) && Distinct(w, f)
    ensures forall g: Handle, h: Handle ::
      (Engines.Pooled(w.backend.pool, g) || Concerned(w, f, g)) && Concerned(w, f, h) && Key(g) == Key(h) ==> g == h
  {
    hide ConfiguredOn, WrittenHome, Engines.Pooled;
  }

  // ---------------------------------------------------------------------------------------------------------
  // Piers
  // ---------------------------------------------------------------------------------------------------------

  predicate Contains(text: string, part: string) {
    part <= text || (text != "" && Contains(text[1..], part))
  }

  /** IsUselessPier: no import names the pier, and no export has it as a part of its list. */
  predicate Useless(ctx: Store.Ctx, pier: string) {
    && (forall id, name ::
         id in ctx.bundle && id != ctx.config.pier && name in ctx.bundle[id] ==> ctx.bundle[id][name].pier != pier)
    && (ctx.config.pier in ctx.bundle ==>
         forall name :: name in ctx.bundle[ctx.config.pier] ==> !Contains(ctx.bundle[ctx.config.pier][name].pier, pier))
  }

  /** Imports are kept under the pier that they name. */
  predicate Homed(ctx: Store.Ctx) {
    forall id, name ::
      id in ctx.bundle && id != ctx.config.pier && name in ctx.bundle[id] ==> ctx.bundle[id][name].pier == id
  }

  lemma DelPierMeans(w: World, pier: string)
    requires Settled(w.home, w.ctx) && pier in w.ctx.bundle && pier != w.ctx.config.pier
    ensures var a := Store.Exec(w.home, w.ctx, Store.DelPier(pier));
      && a.outcome == Store.Done && Settled(a.home, a.ctx)
      && (forall h: Handle :: ConfiguredOn(a.home.disk, h) <==> ConfiguredOn(w.home.disk, h) && h.pier != pier)
  {
    hide ContextServices, EngineConfig, ContextConfig, ServicesOf, Keyed, WrittenDir, Store.Agrees;
    Store.AgreesKeyed(w.ctx, w.home.disk, pier);
    OpenWhenAgrees(w.ctx, w.home.disk);
    SameRepository(w.home.disk);
    Store.PierAgrees(w.home, w.ctx, Store.DelPier(pier));
    var a := Store.Exec(w.home, w.ctx, Store.DelPier(pier));
    assert LoadConfig(a.home.disk) == LoadConfig(w.home.disk);
    assert Repository(a.home.disk) == Repository(w.home.disk) - {pier};
  }

  /** Deleting a pier, which the backend is not told of, keeps pool and disk together iff nothing is kept under it. */
  lemma DelPierFollows(w: World, pier: string)
    requires Follows(w) && pier in w.ctx.bundle && pier != w.ctx.config.pier
    ensures var a := Store.Exec(w.home, w.ctx, Store.DelPier(pier));
      && a.outcome == Store.Done && Settled(a.home, a.ctx)
      && (Follows(After(w, a)) <==> w.ctx.bundle[pier] == map[])
  {
    hide ConfiguredOn, WrittenHome, Store.Agrees, Store.Exec, Engines.Pooled;
    DelPierMeans(w, pier);
    ServicesMatch(w.home, w.ctx, pier);
    if w.ctx.bundle[pier] == map[] {
      assert forall h: Handle :: h.pier == pier ==> h == Handle(pier, h.service) && !ConfiguredOn(w.home.disk, h);
    } else {
      var name :| name in w.ctx.bundle[pier];
      assert ConfiguredOn(w.home.disk, Handle(pier, name));
    }
  }

  lemma UselessIsEmpty(ctx: Store.Ctx, pier: string)
    requires Homed(ctx) && Useless(ctx, pier) && pier in ctx.bundle && pier != ctx.config.pier
    ensures ctx.bundle[pier] == map[]
  {
    assert forall name :: name in ctx.bundle[pier] ==> ctx.bundle[pier][name].pier == pier;
    assert ctx.bundle[pier].Keys == {};
  }

  lemma {:induction false} WordsAreParts(text: string, i: nat)
    requires i < |Controllers.Split(text)|
    ensures Contains(text, Controllers.Split(text)[i])
    ensures i == 0 ==> Controllers.Split(text)[i] <= text
  {
    if text != "" {
      var rest := Controllers.Split(text[1..]);
      if text[0] == ' ' {
        if i > 0 { WordsAreParts(text[1..], i - 1); }
      } else {
        WordsAreParts(text[1..], i);
      }
    }
  }

  /** ... and no export lists it. */
  lemma UselessIsUnlisted(ctx: Store.Ctx, pier: string, name: string)
    requires Useless(ctx, pier) && ctx.config.pier in ctx.bundle && name in ctx.bundle[ctx.config.pier]
    ensures pier !in Controllers.Piers(ctx.bundle[ctx.config.pier][name].pier)
  {
    var list := ctx.bundle[ctx.config.pier][name].pier;
    var words := Controllers.Split(list);
    forall i | 0 <= i < |words| ensures words[i] != pier { WordsAreParts(list, i); }
  }

  /** No call of the store but set_config, which may turn to another repository, lets an import leave its pier. */
  lemma StaysHomed(home: Store.Home, ctx: Store.Ctx, op: Store.Op)
    requires Homed(ctx) && !op.SetConfig? && (op.AddImport? ==> op.service.pier != ctx.config.pier)
    ensures Homed(Store.Exec(home, ctx, op).ctx)
  {
    hide SavedDoc, Store.WithDir, Store.WithoutDir;
  }

  // ---------------------------------------------------------------------------------------------------------
  // The configuration
  // ---------------------------------------------------------------------------------------------------------

  /** Each identity has its own repository: `base` is the folder of repositories, `symbols` the identity decoded. */
  function Rebased(actual: Config, origin: Config, base: string, symbols: seq<int32>): Config {
    if actual.pier != origin.pier then actual.(repo := base + "/" + Hashes.TextHash(symbols)) else actual
  }

  /** A bulk request of the user interface. */
  function Requested(w: World, cmd: Engines.Command, env: Env): World {
    w.(backend := Backends.Served(w.backend, Backends.All(cmd), w.home.disk, env))
  }

  /** set_config as called when nobody else writes in between. */
  function SetConfigOf(d: Disk, info: Config, minted: string): Store.Op {
    Store.SetConfig(info, minted, Store.Wrong(d, info))
  }

  /** ConfigImpl::Store: set_config, then Unplug and Engage for a new identity or else Adjust. */
  function StoreConfig(w: World, actual: Config, origin: Config, base: string, symbols: seq<int32>, minted: string,
                       first: Env, second: Env)
    : (r: (World, Config))
  {
    if actual == origin then (w, origin)
    else
      var info := Rebased(actual, origin, base, symbols);
      var a := Store.Exec(w.home, w.ctx, SetConfigOf(w.home.disk, info, minted));
      if Throws(a.outcome) then (After(w, a), origin)
      else if actual.pier != origin.pier
      then (Requested(Requested(After(w, a), Engines.Unplug, first), Engines.Engage, second), info)
      else (Requested(After(w, a), Engines.Adjust, first), info)
  }

  lemma SetConfigWrites(home: Store.Home, ctx: Store.Ctx, info: Config, minted: string)
    requires Store.Agrees(ctx, home.disk) && Store.Current(ctx, home.stamp)
    requires Store.Fits(SetConfigOf(home.disk, info, minted), ctx, home.disk)
    requires WrittenHome(home.disk) && WrittenRepo(RepoOf(home.disk, info.repo))
    ensures var a := Store.Exec(home, ctx, SetConfigOf(home.disk, info, minted));
      && WrittenHome(a.home.disk) && Store.Agrees(a.ctx, a.home.disk)
      && (!Throws(a.outcome) ==> LoadConfig(a.home.disk) == Ok(WithoutNetwork(info)) && a.ctx.config == info)
  {
    hide ContextServices, EngineConfig, ContextConfig, ConfigDoc, Store.Agrees, Keyed;
    Store.SetConfigAgrees(home, ctx, info, minted, Store.Wrong(home.disk, info));
    ConfigRoundTrip(info);
    var a := Store.Exec(home, ctx, SetConfigOf(home.disk, info, minted));
    if a.outcome == Store.Done {
      var was, now := RepoOf(home.disk, info.repo), RepoOf(a.home.disk, info.repo);
      if info.pier != ctx.config.pier {
        assert now == was[info.pier := now[info.pier]];
        assert now[info.pier].conf == Store.DirOf(home.disk, info.repo, info.pier).conf;
        assert WrittenDir(now[info.pier]) by {
          if info.pier in was { assert WrittenDir(was[info.pier]); } else { NoServicesWritten(now[info.pier]); }
        }
      } else {
        OpenWhenAgrees(ctx, home.disk);
        ConfigAgrees(ctx, home.disk);
      }
    }
  }

  lemma NoServicesWritten(dir: PierDir)
    requires dir.conf.None?
    ensures WrittenDir(dir)
  {
  }

  lemma ConfigAgrees(ctx: Store.Ctx, d: Disk)
    requires Store.Agrees(ctx, d) && WrittenHome(d)
    ensures LoadConfig(d).value.repo == ctx.config.repo
  {
  }

  /**
   Another configuration is stored unless it is for a new identity whose key pair is half there: the file then has it,
   context and form have it, and the pool holds exactly the services of the repository then in force, whatever it held
   before, if and only if that repository is unambiguous.
   */
  lemma StoreConfigFollows(w: World, actual: Config, base: string, symbols: seq<int32>, minted: string, first: Env,
                           second: Env)
    requires Settled(w.home, w.ctx) && actual != w.ctx.config
    requires actual.pier == w.ctx.config.pier ==> actual.repo == w.ctx.config.repo
    requires var info := Rebased(actual, w.ctx.config, base, symbols);
      && WrittenRepo(RepoOf(w.home.disk, info.repo))
      && (actual.pier == w.ctx.config.pier || !Store.Wrong(w.home.disk, info))
    ensures var r := StoreConfig(w, actual, w.ctx.config, base, symbols, minted, first, second);
      && r.1 == r.0.ctx.config == Rebased(actual, w.ctx.config, base, symbols)
      && Store.Agrees(r.0.ctx, r.0.home.disk) && WrittenHome(r.0.home.disk)
      && LoadConfig(r.0.home.disk) == Ok(WithoutNetwork(r.1))
      && (Backends.Follows(r.0.backend.pool, r.0.home.disk) <==> UnambiguousOn(r.0.home.disk))
  {
    hide Store.Agrees, Store.Exec, WrittenHome, UnambiguousOn, Backends.Follows, Backends.Served, WrittenRepo;
    hide Hashes.TextHash, LoadConfig, Store.Wrong;
    var info := Rebased(actual, w.ctx.config, base, symbols);
    Outcomes.SetConfigOutcome(w.home, w.ctx, info, minted, Store.Wrong(w.home.disk, info));
    SetConfigWrites(w.home, w.ctx, info, minted);
    var v := After(w, Store.Exec(w.home, w.ctx, SetConfigOf(w.home.disk, info, minted)));
    if actual.pier != w.ctx.config.pier {
      Backends.BulkFollows(Requested(v, Engines.Unplug, first).backend, Engines.Engage, v.home.disk, second);
    } else {
      Backends.BulkFollows(v.backend, Engines.Adjust, v.home.disk, first);
    }
  }

  /** Otherwise nothing changes: neither if it is the same, nor if the new identity cannot be taken. */
  lemma StoreConfigIdles(w: World, actual: Config, base: string, symbols: seq<int32>, minted: string, first: Env,
                         second: Env)
    requires actual == w.ctx.config
      || (actual.pier != w.ctx.config.pier && Store.Wrong(w.home.disk, Rebased(actual, w.ctx.config, base, symbols)))
    ensures StoreConfig(w, actual, w.ctx.config, base, symbols, minted, first, second) == (w, w.ctx.config)
  {
    hide Hashes.TextHash, Store.Wrong, Backends.Served;
  }

  /** Identities of equal length that differ in one symbol do not share a repository. */
  lemma RepositoriesDiffer(origin: Config, one: Config, other: Config, base: string, a: seq<int32>, b: seq<int32>,
                           at: nat)
    requires one.pier != origin.pier && other.pier != origin.pier
    requires |a| == |b| && at < |a| && a[at] != b[at] && forall i :: 0 <= i < |a| && i != at ==> a[i] == b[i]
    ensures Rebased(one, origin, base, a).repo != Rebased(other, origin, base, b).repo
  {
    hide Hashes.TextHash;
    Hashes.OneSymbolTells(a, b, at);
    var x, y := base + "/" + Hashes.TextHash(a), base + "/" + Hashes.TextHash(b);
    assert x[|base| + 1..] == Hashes.TextHash(a) && y[|base| + 1..] == Hashes.TextHash(b);
  }
}
