/**
 What the engine of src/backend/server.cpp loads from the disk, in bulk and for a single handle.
 */
module EngineFiles {
  import opened Settings
  import opened Order
  import opened Handles
  import opened Files
  import opened Engines

  /** The entries of one pier directory. */
  function Entries(id: string, services: seq<Service>): (r: Listing)
    ensures |r| == |services| && forall i :: 0 <= i < |r| ==> r[i] == (Handle(id, services[i].name), services[i])
  {
    seq(|services|, i requires 0 <= i < |services| => (Handle(id, services[i].name), services[i]))
  }

  /** The bulk loader over the pier directories `ids`: those with a configuration file, in the order of the map. */
  function ListingOf(ids: seq<string>, repo: Repo): Result<Listing>
    requires forall id :: id in ids ==> id in repo
  {
    if ids == [] then Ok([]) else
      var first := EngineServices(DocOf(repo[ids[0]]));
      var rest := ListingOf(ids[1..], repo);
      if first.Err? then Err(first.error) else if rest.Err? then Err(rest.error)
      else Ok(Entries(ids[0], first.value) + rest.value)
  }

  function LoadConfig(d: Disk): Result<Config> {
    if d.conf.None? then Err("cannot open file") else EngineConfig(d.conf.value)
  }

  /** load_config() and load_config(repo): the configuration and every service of the repository. */
  function LoadAll(d: Disk): Result<(Config, Listing)> {
    var config := LoadConfig(d);
    if config.Err? then Err(config.error)
    else if config.value.repo == "" || config.value.repo !in d.repos then Err("No such file or directory")
    else
      var repo := RepoOf(d, config.value.repo);
      var list := ListingOf(SortedKeys(repo.Keys), repo);
      if list.Err? then Err(list.error) else Ok((config.value, list.value))
  }

  /** load_config() and load_config(repo, id): the configuration and one service, default-made if missing. */
  function LoadOne(d: Disk, id: Handle): Result<(Config, Service)> {
    var config := LoadConfig(d);
    if config.Err? then Err(config.error)
    else
      var repo := RepoOf(d, config.value.repo);
      var service := if id.pier in repo then EngineService(DocOf(repo[id.pier]), id.service) else Ok(EMPTY_SERVICE);
      if service.Err? then Err(service.error) else Ok((config.value, service.value))
  }

  // ---------------------------------------------------------------------------------------------------------
  // Files as the store writes them
  // ---------------------------------------------------------------------------------------------------------

  function ServicesOf(dir: PierDir): Services {
    ContextServices(DocOf(dir), false)
  }

  /** The pier file, if there is one, is what save_pier_config writes for the services in it. */
  predicate WrittenDir(dir: PierDir) {
    Keyed(ServicesOf(dir)) && (dir.conf.Some? ==> dir.conf.value == SavedDoc(ServicesOf(dir)))
  }

  predicate WrittenRepo(repo: Repo) {
    forall id :: id in repo ==> WrittenDir(repo[id])
  }

  /** The service that a repository holds under a handle. */
  predicate Holds(repo: Repo, h: Handle, s: Service) {
    h.pier in repo && h.service in ServicesOf(repo[h.pier]) && s == ServicesOf(repo[h.pier])[h.service]
  }

  lemma WrittenDirLoads(dir: PierDir)
    requires WrittenDir(dir)
    ensures EngineServices(DocOf(dir)) == Ok(ListOf(SortedKeys(ServicesOf(dir).Keys), ServicesOf(dir)))
    ensures forall name ::
      EngineService(DocOf(dir), name) == Ok(if name in ServicesOf(dir) then ServicesOf(dir)[name] else EMPTY_SERVICE)
  {
    hide ContextItem, EngineItem, ItemOf;
    var m := ServicesOf(dir);
    if dir.conf.Some? {
      SavedDocLoads(m);
    } else {
      assert SortedKeys(m.Keys) == [];
    }
  }

  lemma {:induction false} ListingLoads(ids: seq<string>, repo: Repo)
    requires WrittenRepo(repo) && forall id :: id in ids ==> id in repo
    requires forall i, j :: 0 <= i < j < |ids| ==> ids[i] != ids[j]
    ensures var r := ListingOf(ids, repo);
      && r.Ok?
      && (forall i :: 0 <= i < |r.value| ==> r.value[i].0.pier in ids && Holds(repo, r.value[i].0, r.value[i].1))
      && (forall i, j :: 0 <= i < j < |r.value| ==> r.value[i].0 != r.value[j].0)
      && (forall h: Handle, s: Service :: h.pier in ids && Holds(repo, h, s) ==> (h, s) in r.value)
  {
    hide ServicesOf, EngineServices, Keyed;
    if ids != [] {
      var id, rest := ids[0], ids[1..];
      ListingLoads(rest, repo);
      EntriesLoad(id, repo);
      var own := Entries(id, EngineServices(DocOf(repo[id])).value);
      var tail := ListingOf(rest, repo).value;
      var all := own + tail;
      assert id !in rest;
      forall h: Handle, s: Service | h.pier in ids && Holds(repo, h, s) ensures (h, s) in all {
        if h.pier == id { assert (h, s) in own; } else { assert h.pier in rest; assert (h, s) in tail; }
      }
    }
  }

  lemma EntriesLoad(id: string, repo: Repo)
    requires WrittenRepo(repo) && id in repo
    ensures var r := EngineServices(DocOf(repo[id]));
      && r.Ok?
      && (var own := Entries(id, r.value);
         && (forall i :: 0 <= i < |own| ==> own[i].0.pier == id && Holds(repo, own[i].0, own[i].1))
         && (forall i, j :: 0 <= i < j < |own| ==> own[i].0 != own[j].0)
         && (forall h: Handle, s: Service :: h.pier == id && Holds(repo, h, s) ==> (h, s) in own))
  {
    hide EngineServices, ServicesOf, EngineService, SavedDoc;
    var m := ServicesOf(repo[id]);
    assert WrittenDir(repo[id]);
    var keys := SortedKeys(m.Keys);
    WrittenDirLoads(repo[id]);
    KeysDistinct(m.Keys);
    var own := Entries(id, ListOf(keys, m));
    forall i | 0 <= i < |own| ensures own[i] == (Handle(id, keys[i]), m[keys[i]]) { }
    forall h: Handle, s: Service | h.pier == id && Holds(repo, h, s) ensures (h, s) in own {
      var i :| 0 <= i < |keys| && keys[i] == h.service;
      assert own[i] == (h, s);
    }
  }

  /** A home that the store has written: a configuration and a repository of written pier files. */
  predicate WrittenHome(d: Disk) {
    && LoadConfig(d).Ok? && LoadConfig(d).value.repo != "" && LoadConfig(d).value.repo in d.repos
    && WrittenRepo(d.repos[LoadConfig(d).value.repo])
  }

  function Repository(d: Disk): Repo
    requires WrittenHome(d)
  {
    d.repos[LoadConfig(d).value.repo]
  }

  /**
   On a written home both loaders succeed; the bulk loader lists each service once, under its handle, and the
   single loader finds what the list has for the handle.
   */
  lemma LoadersAgree(d: Disk)
    requires WrittenHome(d)
    ensures LoadAll(d).Ok? && LoadAll(d).value.0 == LoadConfig(d).value
    ensures var list := LoadAll(d).value.1;
      && (forall h: Handle, s: Service :: (h, s) in list <==> Holds(Repository(d), h, s))
      && (forall i, j :: 0 <= i < j < |list| ==> list[i].0 != list[j].0)
      && (forall id: Handle :: LoadOne(d, id) == Ok((LoadConfig(d).value, Find(list, id))))
  {
    hide ServicesOf, Keyed, WrittenDir, EngineService, ListingOf, EngineConfig;
    var repo := Repository(d);
    var ids := SortedKeys(repo.Keys);
    KeysDistinct(repo.Keys);
    ListingLoads(ids, repo);
    var list := ListingOf(ids, repo).value;
    forall h: Handle, s: Service ensures (h, s) in list <==> Holds(repo, h, s) {
      assert Holds(repo, h, s) ==> h.pier in ids;
    }
    forall id: Handle ensures LoadOne(d, id) == Ok((LoadConfig(d).value, Find(list, id))) {
      LoadOneFinds(d, list, id);
    }
  }

  lemma LoadOneFinds(d: Disk, list: Listing, id: Handle)
    requires WrittenHome(d)
    requires forall h: Handle, s: Service :: (h, s) in list <==> Holds(Repository(d), h, s)
    ensures LoadOne(d, id) == Ok((LoadConfig(d).value, Find(list, id)))
  {
    hide EngineService, EngineConfig, Keyed;
    var repo := Repository(d);
    FindInList(list, id);
    if id.pier in repo {
      WrittenDirLoads(repo[id.pier]);
      if id.service in ServicesOf(repo[id.pier]) {
        assert Holds(repo, id, ServicesOf(repo[id.pier])[id.service]);
      }
    }
  }

  lemma {:induction false} FindInList(list: Listing, id: Handle)
    ensures (exists s :: (id, s) in list) ==> (id, Find(list, id)) in list
    ensures !(exists s :: (id, s) in list) ==> Find(list, id) == EMPTY_SERVICE
  {
    if list != [] {
      FindInList(list[1..], id);
      if list[0].0 == id { assert (id, list[0].1) == list[0]; }
    }
  }

  lemma {:induction false} ServicesExactly(doc: PierDoc)
    ensures EngineServices(doc).Ok? <==> forall i :: 0 <= i < |doc| ==> EngineItem(doc[i], true).Ok?
  {
    hide EngineItem;
    if doc != [] { ServicesExactly(doc[1..]); }
  }

  lemma {:induction false} ListingExactly(ids: seq<string>, repo: Repo)
    requires forall id :: id in ids ==> id in repo
    ensures ListingOf(ids, repo).Ok? <==> forall id :: id in ids ==> EngineServices(DocOf(repo[id])).Ok?
  {
    hide EngineServices;
    if ids != [] { ListingExactly(ids[1..], repo); }
  }

  /**
   Exactly when a home can be loaded, whoever wrote it: the configuration names pier and repository, the repository is
   there, and no entry of any pier file lacks what the engine needs.
   */
  lemma LoadAllExactly(d: Disk)
    ensures LoadAll(d).Ok? <==>
      && d.conf.Some? && PierLeaf in d.conf.value && RepoLeaf in d.conf.value
      && (var path := d.conf.value[RepoLeaf];
         && path != "" && path in d.repos
         && forall id :: id in d.repos[path] ==> EngineServices(DocOf(d.repos[path][id])).Ok?)
  {
    hide ListingOf, EngineServices, ReadJournal, ReadPuncher, ReadEmailer, ReadRelay, GetInt;
    if LoadConfig(d).Ok? {
      var repo := RepoOf(d, LoadConfig(d).value.repo);
      ListingExactly(SortedKeys(repo.Keys), repo);
    }
  }

  /** The handles configured on a disk. */
  predicate ConfiguredOn(d: Disk, h: Handle)
    requires WrittenHome(d)
  {
    h.pier in Repository(d) && h.service in ServicesOf(Repository(d)[h.pier])
  }

  lemma ConfiguredMeans(d: Disk, h: Handle)
    requires WrittenHome(d)
    ensures LoadAll(d).Ok? && (Configured(LoadAll(d).value.1, h) <==> ConfiguredOn(d, h))
  {
    hide LoadAll, LoadOne, LoadConfig, WrittenHome, ServicesOf;
    LoadersAgree(d);
    var list := LoadAll(d).value.1;
    if ConfiguredOn(d, h) {
      var s := ServicesOf(Repository(d)[h.pier])[h.service];
      assert Holds(Repository(d), h, s) && (h, s) in list;
    }
  }

  /** Different handles configured on the disk have different concatenations of pier and service. */
  ghost predicate UnambiguousOn(d: Disk)
    requires WrittenHome(d)
  {
    forall g: Handle, h: Handle :: ConfiguredOn(d, g) && ConfiguredOn(d, h) && Key(g) == Key(h) ==> g == h
  }

  /** No service of the disk has an empty name. */
  ghost predicate NamedOn(d: Disk)
    requires WrittenHome(d)
  {
    forall h: Handle :: ConfiguredOn(d, h) ==> h.service != ""
  }

  lemma ListingIsClean(d: Disk)
    requires WrittenHome(d)
    ensures LoadAll(d).Ok?
    ensures UnambiguousOn(d) ==> NoClash(LoadAll(d).value.1)
    ensures UnambiguousOn(d) <==> Unambiguous(LoadAll(d).value.1)
    ensures NamedOn(d) ==> NamesAreSet(LoadAll(d).value.1)
  {
    hide LoadAll, LoadOne, Repository, ServicesOf, ConfiguredOn;
    LoadersAgree(d);
    var list := LoadAll(d).value.1;
    forall h ensures Configured(list, h) <==> ConfiguredOn(d, h) { ConfiguredMeans(d, h); }
    assert forall i :: 0 <= i < |list| ==> Configured(list, list[i].0);
    forall i | 0 <= i < |list| ensures list[i].1.name == list[i].0.service { EntryName(d, i); }
  }

  lemma EntryName(d: Disk, i: nat)
    requires WrittenHome(d) && LoadAll(d).Ok? && i < |LoadAll(d).value.1|
    ensures LoadAll(d).value.1[i].1.name == LoadAll(d).value.1[i].0.service
  {
    LoadersAgree(d);
    var e := LoadAll(d).value.1[i];
    assert (e.0, e.1) in LoadAll(d).value.1;
    assert WrittenDir(Repository(d)[e.0.pier]);
  }

  /** The single loader finds a service exactly when the handle is configured. */
  lemma LoadOneMeans(d: Disk, id: Handle)
    requires WrittenHome(d) && NamedOn(d)
    ensures LoadOne(d, id).Ok? && (LoadOne(d, id).value.1.name != "" <==> ConfiguredOn(d, id))
  {
    hide EngineService, EngineConfig;
    var repo := Repository(d);
    if id.pier in repo {
      WrittenDirLoads(repo[id.pier]);
      assert WrittenDir(repo[id.pier]);
    }
  }
}
