/**
 Worlds in which a form makes a service go astray. All start from a settled home whose services the backend has just
 been adjusted to.
 */
module FormExamples {
  import opened Text
  import opened Settings
  import opened Handles
  import opened Files
  import opened EngineFiles
  import opened Forms
  import Connectors
  import Engines
  import Backends
  import Store

  const REPO := "/repo"
  const LOCAL := EMPTY_CONFIG.(pier := "me/pc", repo := REPO)

  /** Pier `a` has two imports, pier `b` has none. */
  function Home(a: string, b: string, services: Services): Disk {
    Disk(Some(ConfigDoc(LOCAL)),
      map[REPO := map[a := PierDir(Some("A"), false, Some(SavedDoc(services))), b := PierDir(Some("B"), false, None)]])
  }

  const LATE: Env := (key: string, pier: string) => Connectors.Choice([], "")

  /** The home opened, with a backend that has been adjusted to it. */
  function Example(a: string, b: string, services: Services): World
    requires Store.Open(Home(a, b, services)).Ok?
  {
    var d := Home(a, b, services);
    World(Store.Home(d, 0), Store.Open(d).value, Backends.Served(Backends.START, Backends.All(Engines.Adjust), d, LATE))
  }

  lemma ConfigIs(a: string, b: string, services: Services)
    ensures var d := Home(a, b, services);
      && LoadConfig(d) == ContextConfig(d.conf.value) == Ok(LOCAL) && d.conf.Some?
      && RepoOf(d, REPO) == d.repos[REPO]
  {
    hide ConfigDoc, EngineConfig, ContextConfig, SavedDoc;
    ConfigRoundTrip(LOCAL);
  }

  lemma DirsAre(a: string, b: string, services: Services)
    requires a != b && Keyed(services)
    ensures var repo := Home(a, b, services).repos[REPO];
      && repo.Keys == {a, b} && repo[a].cert.Some? && repo[b].cert.Some?
      && WrittenDir(repo[a]) && WrittenDir(repo[b]) && ServicesOf(repo[a]) == services && ServicesOf(repo[b]) == map[]
      && (forall isLocalPier :: ContextServices(DocOf(repo[a]), isLocalPier) == services)
      && (forall isLocalPier :: ContextServices(DocOf(repo[b]), isLocalPier) == map[])
  {
    hide ConfigDoc, ContextServices, SavedDoc;
    SavedDocLoads(services);
    NoServices(false);
    NoServices(true);
  }

  lemma HomeIs(a: string, b: string, services: Services)
    requires a != b && Keyed(services) && "" !in services
    ensures var d := Home(a, b, services);
      && WrittenHome(d) && NamedOn(d) && Store.Open(d).Ok?
      && Store.Open(d).value == Store.Ctx(LOCAL, map[a := services, b := map[]], None)
      && (forall h: Handle :: ConfiguredOn(d, h) <==> h.pier == a && h.service in services)
  {
    var d := Home(a, b, services);
    hide Home, LoadConfig, ContextConfig, ContextServices, ServicesOf, WrittenDir, Keyed;
    ConfigIs(a, b, services);
    DirsAre(a, b, services);
    var l := Store.LoadedBundle(d, LOCAL);
    assert l.Keys == {a, b};
    assert l == map[a := services, b := map[]];
  }

  lemma ExampleFollows(a: string, b: string, services: Services)
    requires a != b && Keyed(services) && "" !in services
    ensures Store.Open(Home(a, b, services)).Ok? && Follows(Example(a, b, services))
  {
    hide Home, WrittenHome, ConfiguredOn, Backends.Served, Store.Agrees, Store.Open;
    var d := Home(a, b, services);
    HomeIs(a, b, services);
    Store.OpenAgrees(d);
    assert UnambiguousOn(d) by {
      forall g: Handle, h: Handle | ConfiguredOn(d, g) && ConfiguredOn(d, h) && Key(g) == Key(h) ensures g == h {
        SamePier(g, h);
      }
    }
    Backends.BulkFollows(Backends.START, Engines.Adjust, d, LATE);
    Backends.NothingIsValid();
    Backends.NextIsValid(Backends.START, Backends.Serve(Backends.All(Engines.Adjust), d, LATE));
  }

  /** Handles of one pier clash only if they are the same. */
  lemma SamePier(g: Handle, h: Handle)
    requires g.pier == h.pier && Key(g) == Key(h)
    ensures g == h
  {
    assert Key(g)[|g.pier|..] == g.service && Key(h)[|h.pier|..] == h.service;
  }

  /** The imports of the examples, `s` and `t`, of pier a/pc. */
  function Import(name: string): Service {
    EMPTY_SERVICE.(name := name, pier := "a/pc")
  }

  const IMPORTS := map["s" := Import("s"), "t" := Import("t")]

  lemma FirstWorld() returns (w: World)
    ensures Follows(w) && w.ctx == Store.Ctx(LOCAL, map["a/pc" := IMPORTS, "b/pc" := map[]], None)
    ensures forall h: Handle :: ConfiguredOn(w.home.disk, h) <==> h.pier == "a/pc" && h.service in {"s", "t"}
  {
    hide Home, ConfiguredOn, Follows;
    assert "a/pc"[0] != "b/pc"[0];
    HomeIs("a/pc", "b/pc", IMPORTS);
    ExampleFollows("a/pc", "b/pc", IMPORTS);
    w := Example("a/pc", "b/pc", IMPORTS);
  }

  /** Handles of the two piers differ in the first letter of their keys. */
  lemma KeysDiffer(g: Handle, h: Handle)
    requires g.pier in {"a/pc", "b/pc"} && h.pier in {"a/pc", "b/pc"} && Key(g) == Key(h)
    ensures g == h
  {
    assert Key(g)[0] == g.pier[0] && Key(h)[0] == h.pier[0];
    if g.pier == h.pier { SamePier(g, h); }
  }

  lemma FormIsDistinct(w: World, f: Form)
    requires WrittenHome(w.home.disk) && !f.edit.local && f.edit.pier in {"a/pc", "b/pc"}
    requires forall h: Handle :: ConfiguredOn(w.home.disk, h) ==> h.pier == "a/pc"
    ensures Distinct(w, f)
  {
    hide ConfiguredOn, WrittenHome, Key;
    forall g: Handle, h: Handle | Concerned(w, f, g) && Concerned(w, f, h) && Key(g) == Key(h) ensures g == h {
      KeysDiffer(g, h);
    }
  }

  /** There is a world and a form that moves an import to a pier that accepts it, and leaves the old one astray. */
  lemma StoreCanStrayByMoving()
    ensures exists w: World, f: Form ::
      && Follows(w) && Anchored(w.ctx, f) && Distinct(w, f) && f.edit.name != ""
      && Accepted(w.ctx, f) && !Stays(w.ctx, f)
      && !Follows(StoreForm(w, f, LATE, LATE).world)
  {
    hide ConfiguredOn, WrittenHome, StoreForm, Distinct, Follows;
    var w := FirstWorld();
    var f := Form(Import("s").(pier := "b/pc"), Import("s"));
    assert WrittenHome(w.home.disk) by { FollowsIsWritten(w); }
    FormIsDistinct(w, f);
    StoreFollows(w, f, LATE, LATE);
  }

  /** There is a world and a form that loses a service because its new name is taken. */
  lemma StoreCanStrayByRenaming()
    ensures exists w: World, f: Form ::
      && Follows(w) && Anchored(w.ctx, f) && Distinct(w, f) && f.edit.name != ""
      && f.edit.pier == f.origin.pier && !Stays(w.ctx, f)
      && !Follows(StoreForm(w, f, LATE, LATE).world)
  {
    hide ConfiguredOn, WrittenHome, StoreForm, Distinct, Follows;
    var w := FirstWorld();
    var f := Form(Import("t"), Import("s"));
    assert WrittenHome(w.home.disk) by { FollowsIsWritten(w); }
    FormIsDistinct(w, f);
    StoreFollows(w, f, LATE, LATE);
  }

  /** There is a world and a form that is purged under a name it was not stored under. */
  lemma PurgeCanStray()
    ensures exists w: World, f: Form ::
      && Follows(w) && Anchored(w.ctx, f) && Distinct(w, f) && Stored(f) && !Follows(PurgeForm(w, f, LATE).world)
  {
    hide ConfiguredOn, WrittenHome, PurgeForm, Distinct, Follows;
    var w := FirstWorld();
    var f := Form(Import("x"), Import("s"));
    assert WrittenHome(w.home.disk) by { FollowsIsWritten(w); }
    FormIsDistinct(w, f);
    PurgeFollows(w, f, LATE);
  }

  lemma FollowsIsWritten(w: World)
    requires Follows(w)
    ensures WrittenHome(w.home.disk)
  {
  }
}
