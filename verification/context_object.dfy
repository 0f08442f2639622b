/**
 context_impl of src/store/context.cpp as an object: m_config and m_bundle change in place, partly before the lock is
 taken, and the files change under the lock. Every method is proved to be the operation of module Store.
 */
module ContextObjects {
  import opened Text
  import opened Settings
  import opened Order
  import opened Files
  import opened Store

  /** The home directory that contexts share, with the lock file's stamp. */
  class HomeDir {
    var disk: Disk
    var stamp: nat

    constructor (disk: Disk, stamp: nat)
      ensures Value() == Home(disk, stamp)
    {
      this.disk, this.stamp := disk, stamp;
    }

    function Value(): Home
      reads this
    {
      Home(disk, stamp)
    }
  }

  function Emplaced(services: Services, unit: Service): Services {
    if unit.name in services then services else services[unit.name := unit]
  }

  /** Appending an entry to a pier file is to emplace it last. */
  lemma {:induction false} ContextServicesSnoc(doc: PierDoc, item: Item, isLocalPier: bool)
    ensures var unit := ContextItem(item, isLocalPier);
      ContextServices(doc + [item], isLocalPier) == Emplaced(ContextServices(doc, isLocalPier), unit)
  {
    hide ContextItem;
    if doc == [] {
      assert ContextServices([], isLocalPier) == map[];
    } else {
      assert (doc + [item])[1..] == doc[1..] + [item];
      ContextServicesSnoc(doc[1..], item, isLocalPier);
    }
  }

  lemma EmplacedLate(loaded: Services, had: Services, unit: Service)
    ensures Emplaced(loaded + had, unit) == Emplaced(loaded, unit) + had
  {
  }

  function Entry(index: Index, id: string): Services {
    if id in index then index[id] else map[]
  }

  /** What was loaded joins what the index had, which takes precedence. */
  function Merged(loaded: Index, had: Index): Index {
    map id | id in loaded.Keys + had.Keys :: Entry(loaded, id) + Entry(had, id)
  }

  lemma MergedWithEmpty(loaded: Index, pier: string)
    ensures Merged(loaded, map[]) == loaded
    ensures Merged(loaded, map[pier := map[]]) == map[pier := map[]] + loaded
  {
    var a, b, c := Merged(loaded, map[]), Merged(loaded, map[pier := map[]]), map[pier := map[]] + loaded;
    assert a.Keys == loaded.Keys && b.Keys == c.Keys;
    forall id | id in b ensures b[id] == c[id] && (id in a ==> a[id] == loaded[id]) {
      hide Merged;
      MergedAt(loaded, map[], id);
      MergedAt(loaded, map[pier := map[]], id);
      assert Entry(loaded, id) + map[] == Entry(loaded, id);
    }
  }

  lemma MergedNothing(had: Index)
    ensures Merged(map[], had) == had
  {
    var a := Merged(map[], had);
    assert a.Keys == had.Keys;
    forall id | id in a ensures a[id] == had[id] { assert map[] + had[id] == had[id]; }
  }

  function Restricted(loaded: Index, done: set<string>): Index {
    map id | id in loaded && id in done :: loaded[id]
  }

  /** Loading one more directory. */
  lemma MergedOneMore(all: Index, done: set<string>, had: Index, id: string)
    requires id in all && id !in done
    ensures var was := Merged(Restricted(all, done), had);
      Merged(Restricted(all, done + {id}), had) == was[id := all[id] + Entry(was, id)]
  {
    var was := Merged(Restricted(all, done), had);
    var l, r := Merged(Restricted(all, done + {id}), had), was[id := all[id] + Entry(was, id)];
    assert l.Keys == r.Keys;
    MergedAt(Restricted(all, done), had, id);
    forall k | k in l ensures l[k] == r[k] {
      hide Merged;
      MergedAt(Restricted(all, done), had, k);
      MergedAt(Restricted(all, done + {id}), had, k);
    }
  }

  lemma MergedAt(loaded: Index, had: Index, k: string)
    ensures Entry(Merged(loaded, had), k) == Entry(loaded, k) + Entry(had, k)
    ensures k !in loaded ==> Entry(Merged(loaded, had), k) == Entry(had, k)
  {
    assert map[] + Entry(had, k) == Entry(had, k);
  }

  /** Entries made of the services in the order of the index are the saved document. */
  lemma SavedIs(items: PierDoc, services: Services)
    requires |items| == |SortedKeys(services.Keys)|
    requires forall j :: 0 <= j < |items| ==> items[j] == ItemOf(services[SortedKeys(services.Keys)[j]])
    ensures items == SavedDoc(services)
  {
    hide ItemOf;
  }

  class Context {
    const home: HomeDir
    var config: Config
    var bundle: Index
    var time: Option<nat>

    constructor (home: HomeDir)
      ensures this.home == home && Value() == Ctx(EMPTY_CONFIG, map[], None)
    {
      this.home := home;
      config, bundle, time := EMPTY_CONFIG, map[], None;
    }

    function Value(): Ctx
      reads this
    {
      Ctx(config, bundle, time)
    }

    // -------------------------------------------------------------------------------------------------------
    // Files
    // -------------------------------------------------------------------------------------------------------

    /** load_pier_config: entries are emplaced in file order, after what the index has for the pier already. */
    method LoadPierConfig(id: string)
      modifies this`bundle
      ensures var doc := DocOf(DirOf(home.disk, config.repo, id));
        bundle == old(bundle)[id := ContextServices(doc, id == config.pier) + Entry(old(bundle), id)]
    {
      hide ContextItem, ContextServices;
      var doc := DocOf(DirOf(home.disk, config.repo, id));
      if id !in bundle { bundle := bundle[id := map[]]; }
      ghost var had := bundle;
      NoServices(id == config.pier);
      assert had == had[id := had[id]] && map[] + had[id] == had[id];
      for i := 0 to |doc|
        invariant bundle == had[id := ContextServices(doc[..i], id == config.pier) + had[id]]
      {
        assert doc[..i + 1] == doc[..i] + [doc[i]];
        ContextServicesSnoc(doc[..i], doc[i], id == config.pier);
        var unit := ContextItem(doc[i], id == config.pier);
        EmplacedLate(ContextServices(doc[..i], id == config.pier), had[id], unit);
        bundle := bundle[id := Emplaced(bundle[id], unit)];
      }
      assert doc[..|doc|] == doc;
    }

    /** The directories of the repository that hold a certificate are loaded, in no particular order. */
    method LoadRepository()
      modifies this`bundle
      ensures bundle == Merged(LoadedBundle(home.disk, config), old(bundle))
    {
      hide ContextServices, Merged;
      var repo := RepoOf(home.disk, config.repo);
      var left := set id | id in repo && repo[id].cert.Some?;
      ghost var all := LoadedBundle(home.disk, config);
      MergedNothing(old(bundle));
      assert Restricted(all, all.Keys - left) == map[];
      while left != {}
        invariant left <= all.Keys
        invariant bundle == Merged(Restricted(all, all.Keys - left), old(bundle))
        decreases left
      {
        var id :| id in left;
        ghost var done := all.Keys - left;
        MergedOneMore(all, done, old(bundle), id);
        assert all[id] == ContextServices(DocOf(DirOf(home.disk, config.repo, id)), id == config.pier);
        LoadPierConfig(id);
        left := left - {id};
        assert all.Keys - left == done + {id};
      }
      assert Restricted(all, all.Keys) == all && all.Keys - left == all.Keys;
    }

    /** save_pier_config: one entry per service in the order of the map; false for a file_error. */
    method SavePierConfig(id: string) returns (saved: bool)
      requires id in bundle
      modifies home`disk
      ensures saved <==> id in RepoOf(old(home.disk), config.repo)
      ensures home.disk == if !saved then old(home.disk) else
        var dir := DirOf(old(home.disk), config.repo, id);
        WithDir(old(home.disk), config.repo, id, dir.(conf := Some(SavedDoc(bundle[id]))))
    {
      hide ItemOf, SavedDoc;
      var services := bundle[id];
      var keys := SortedKeys(services.Keys);
      var items: PierDoc := [];
      for i := 0 to |keys|
        invariant |items| == i && forall j :: 0 <= j < i ==> items[j] == ItemOf(services[keys[j]])
      {
        items := items + [ItemOf(services[keys[i]])];
      }
      SavedIs(items, services);
      saved := id in RepoOf(home.disk, config.repo);
      if saved {
        home.disk := WithDir(home.disk, config.repo, id, DirOf(home.disk, config.repo, id).(conf := Some(items)));
      }
    }

    /** context_impl's constructor, the part that can fail. */
    method Load() returns (error: Option<string>)
      requires Value() == Ctx(EMPTY_CONFIG, map[], None)
      modifies this
      ensures time == None
      ensures error.None? ==> Open(home.disk) == Ok(Value())
      ensures error.Some? ==> Open(home.disk) == Err(error.value)
    {
      hide ContextConfig, ContextServices, Merged;
      error := None;
      if home.disk.conf.Some? {
        var read := ContextConfig(home.disk.conf.value);
        if read.Err? { return Some(read.error); }
        config := read.value;
        LoadRepository();
        MergedWithEmpty(LoadedBundle(home.disk, config), "");
      }
    }

    // -------------------------------------------------------------------------------------------------------
    // Locks
    // -------------------------------------------------------------------------------------------------------

    /** soft_lock throws a stale_error. */
    predicate Outdated()
      reads this, home
    {
      time.Some? && time.value != home.stamp
    }

    /** ~hard_lock: the stamp is renewed and remembered. */
    method Unlock()
      modifies this`time, home`stamp
      ensures home.stamp == old(home.stamp) + 1 && time == Some(home.stamp)
    {
      home.stamp := home.stamp + 1;
      time := Some(home.stamp);
    }

    // -------------------------------------------------------------------------------------------------------
    // The interface
    // -------------------------------------------------------------------------------------------------------

    /** The call that ended with `outcome` was the operation `op`. */
    twostate predicate Did(op: Op, outcome: Outcome)
      reads this, home
    {
      Answer(home.Value(), Value(), outcome) == Exec(old(home.Value()), old(Value()), op)
    }

    method SetConfig(info: Config, minted: string) returns (outcome: Outcome)
      modifies this, home
      ensures Did(Store.Op.SetConfig(info, minted, Wrong(old(home.disk), info)), outcome)
    {
      hide ContextServices, ConfigDoc, LoadedBundle, Merged;
      if info.pier != config.pier {
        var dir := DirOf(home.disk, info.repo, info.pier);
        if dir.cert.Some? != dir.key { return Usage; }
        config := info;
        bundle := map[info.pier := map[]];
        if Outdated() { return Stale; }
        if info.repo == "" {
          Unlock();
          return Failed;
        }
        if dir.cert.None? && !dir.key { dir := dir.(cert := Some(minted), key := true); }
        home.disk := WithDir(home.disk, info.repo, info.pier, dir);
        home.disk := home.disk.(conf := Some(ConfigDoc(config)));
        LoadRepository();
        MergedWithEmpty(LoadedBundle(home.disk, config), info.pier);
        Unlock();
      } else {
        config := info;
        if Outdated() { return Stale; }
        home.disk := home.disk.(conf := Some(ConfigDoc(config)));
        Unlock();
      }
      outcome := Done;
    }

    /** hard_lock and save_pier_config, as add_* and del_* end. */
    method Commit(pier: string) returns (outcome: Outcome)
      requires pier in bundle
      modifies this`time, home
      ensures Answer(home.Value(), Value(), outcome) == Save(old(home.Value()), old(Value()), pier)
    {
      hide SavedDoc;
      if Outdated() { return Stale; }
      var saved := SavePierConfig(pier);
      Unlock();
      outcome := if saved then Done else Failed;
    }

    method AddExportService(info: Service) returns (outcome: Outcome)
      modifies this, home
      ensures Did(AddExport(info), outcome)
    {
      hide Save;
      if !info.local { return Usage; }
      if config.pier !in bundle || info.name in bundle[config.pier] { return Usage; }
      bundle := bundle[config.pier := bundle[config.pier][info.name := info]];
      outcome := Commit(config.pier);
    }

    method DelExportService(name: string) returns (outcome: Outcome)
      modifies this, home
      ensures Did(DelExport(name), outcome)
    {
      hide Save;
      if config.pier !in bundle { return Usage; }
      outcome := Nothing;
      if name in bundle[config.pier] {
        bundle := bundle[config.pier := bundle[config.pier] - {name}];
        outcome := Commit(config.pier);
      }
    }

    method AddImportService(info: Service) returns (outcome: Outcome)
      modifies this, home
      ensures Did(AddImport(info), outcome)
    {
      hide Save;
      if info.local { return Usage; }
      if info.pier !in bundle || info.name in bundle[info.pier] { return Usage; }
      bundle := bundle[info.pier := bundle[info.pier][info.name := info]];
      outcome := Commit(info.pier);
    }

    method DelImportService(pier: string, name: string) returns (outcome: Outcome)
      modifies this, home
      ensures Did(DelImport(pier, name), outcome)
    {
      hide Save;
      if pier !in bundle { return Usage; }
      outcome := Nothing;
      if name in bundle[pier] {
        bundle := bundle[pier := bundle[pier] - {name}];
        outcome := Commit(pier);
      }
    }

    method AddPier(pier: string, cert: string) returns (outcome: Outcome)
      modifies this, home
      ensures Did(Store.Op.AddPier(pier, cert), outcome)
    {
      if Outdated() { return Stale; }
      if pier in RepoOf(home.disk, config.repo) {
        outcome := Refused;
      } else {
        home.disk := WithDir(home.disk, config.repo, pier, PierDir(Some(cert), false, None));
        if pier !in bundle { bundle := bundle[pier := map[]]; }
        outcome := Done;
      }
      Unlock();
    }

    method DelPier(pier: string) returns (outcome: Outcome)
      modifies this, home
      ensures Did(Store.Op.DelPier(pier), outcome)
    {
      if config.pier == pier { return Usage; }
      if Outdated() { return Stale; }
      bundle := bundle - {pier};
      home.disk := WithoutDir(home.disk, config.repo, pier);
      Unlock();
      outcome := Done;
    }
  }

  /** open_context. */
  method OpenContext(home: HomeDir) returns (r: Result<Context>)
    ensures Open(home.disk).Err? ==> r == Err(Open(home.disk).error)
    ensures Open(home.disk).Ok? ==>
      r.Ok? && fresh(r.value) && r.value.home == home && r.value.Value() == Open(home.disk).value
  {
    var context := new Context(home);
    var error := context.Load();
    r := if error.Some? then Err(error.value) else Ok(context);
  }
}
