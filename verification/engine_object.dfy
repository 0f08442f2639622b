/**
 The engine with its pool updated in place: the same controllers move from the old map to the new one, which is
 swapped in at the end of a bulk command.
 */
module EngineObjects {
  import opened Settings
  import opened Connectors
  import opened Controllers
  import opened Handles
  import opened Engines

  /** Controllers by key, none shared and none sharing a connector. */
  ghost predicate Family(ctl: map<string, Controller>)
    reads ctl.Values, set k, o | k in ctl && o in ctl[k].repr :: o
  {
    && (forall k :: k in ctl ==> ctl[k].Valid())
    && (forall k, l :: k in ctl && l in ctl && k != l ==> ctl[k] != ctl[l] && ctl[k].repr !! ctl[l].repr)
  }

  /** What a command makes of a controller. */
  method Visit(act: Act, c: Controller, config: Config, service: Service, birth: nat, late: string -> Choice)
    requires c.Valid()
    modifies c, c.repr
    ensures c.Valid() && c.View() == Perform(act, old(c.View()), config, service, birth, late)
    ensures forall o :: o in c.repr ==> o in old(c.repr) || fresh(o)
  {
    hide RestartedBundle;
    match act {
      case Reboot => c.Restart(config, service, birth, late);
      case Suspend => c.Suspend();
      case Leave =>
    }
  }

  /** The family shows these connectors. */
  ghost predicate Shows(ctl: map<string, Controller>, views: map<string, Bundle>)
    reads ctl.Values, set k, o | k in ctl && o in ctl[k].repr :: o
  {
    Family(ctl) && ctl.Keys == views.Keys && forall k :: k in ctl ==> ctl[k].View() == views[k]
  }

  ghost predicate Within(ctl: map<string, Controller>, space: set<object>)
    reads ctl.Values
  {
    forall k :: k in ctl ==> ctl[k] in space && ctl[k].repr <= space
  }

  /** Visiting one controller of a family leaves the others as they are. */
  method VisitOne(act: Act, c: Controller, config: Config, service: Service, birth: nat, late: string -> Choice,
                  ghost ctl: map<string, Controller>, ghost k: string, ghost views: map<string, Bundle>)
    requires Shows(ctl, views) && k in ctl && ctl[k] == c
    modifies c, c.repr
    ensures Family(ctl)
    ensures c.View() == Perform(act, views[k], config, service, birth, late)
    ensures forall l :: l in ctl && l != k ==> ctl[l].repr == old(ctl[l].repr) && ctl[l].View() == views[l]
    ensures forall o :: o in c.repr ==> o in old(c.repr) || fresh(o)
  {
    hide Perform, State, RestartedBundle;
    label before:
    assert forall l :: l in ctl && l != k ==> ctl[l] != c && ctl[l].repr !! c.repr;
    Visit(act, c, config, service, birth, late);
    forall l | l in ctl && l != k
      ensures ctl[l].repr == old@before(ctl[l].repr) && ctl[l].repr !! c.repr
      ensures ctl[l].Valid() && ctl[l].View() == views[l]
    {
      assert old@before(ctl[l].Valid() && ctl[l].View() == views[l]);
    }
  }

  /** The same, with the objects the family may have come to occupy. */
  method VisitWithin(act: Act, c: Controller, config: Config, service: Service, birth: nat, late: string -> Choice,
                     ghost ctl: map<string, Controller>, ghost k: string, ghost views: map<string, Bundle>,
                     ghost space: set<object>)
    returns (ghost space': set<object>)
    requires Shows(ctl, views) && k in ctl && ctl[k] == c && Within(ctl, space)
    modifies c, c.repr
    ensures Shows(ctl, views[k := Perform(act, views[k], config, service, birth, late)])
    ensures Within(ctl, space') && forall o :: o in space' ==> o in space || fresh(o)
  {
    hide Perform;
    ghost var after := views[k := Perform(act, views[k], config, service, birth, late)];
    VisitOne(act, c, config, service, birth, late, ctl, k, views);
    assert after.Keys == views.Keys;
    space' := space + set o: object | o in c.repr;
  }

  /** A new controller joins the family. */
  method AddNew(ghost ctl: map<string, Controller>, ghost k: string,
                ghost views: map<string, Bundle>) returns (c: Controller)
    requires Shows(ctl, views) && k !in ctl
    ensures fresh(c) && c.repr == {} && Shows(ctl[k := c], views[k := map[]])
  {
    label before:
    c := new Controller();
    forall l | l in ctl ensures ctl[l] != c && ctl[l].Valid() && ctl[l].View() == views[l] {
      assert old@before(ctl[l].Valid() && ctl[l].View() == views[l]);
    }
    assert c.View() == map[];
  }

  /** The connectors in play in the middle of a bulk command, in the new pool or still in the old one. */
  function Mixed(was: Pool, built: Pool): map<string, Bundle> {
    map k | k in was.Keys + built.Keys :: if k in built then built[k].bundle else was[k].bundle
  }

  /** ... with the bundle that emplace() finds or makes under the key. */
  function Emplaced(views: map<string, Bundle>, k: string): map<string, Bundle> {
    if k in views then views else views[k := map[]]
  }

  function Bundles(p: Pool): map<string, Bundle> {
    map k | k in p :: p[k].bundle
  }

  lemma BundlesUpdate(p: Pool, k: string, e: Entry)
    ensures Bundles(p[k := e]) == Bundles(p)[k := e.bundle]
    ensures Mixed(p, map[]) == Bundles(p)
  {
    assert Bundles(p[k := e]).Keys == Bundles(p)[k := e.bundle].Keys;
    assert Mixed(p, map[]).Keys == Bundles(p).Keys;
  }

  /** The pool with its keys as the map holds them. */
  ghost predicate Named(names: map<string, Handle>, p: Pool) {
    names.Keys == p.Keys && Engines.Valid(p) && forall k :: k in names ==> names[k] == p[k].handle
  }

  lemma NamedUpdate(names: map<string, Handle>, p: Pool, k: string, e: Entry)
    requires Named(names, p) && Key(e.handle) == k
    ensures Named(names[k := e.handle], p[k := e]) && Named(names - {k}, p - {k})
  {
  }

  lemma NamedSame(names: map<string, Handle>, p: Pool, k: string, b: Bundle)
    requires Named(names, p) && k in p
    ensures Named(names, p[k := p[k].(bundle := b)])
  {
  }

  lemma SwapShows(tags: map<string, Handle>, now: map<string, Controller>, pool: map<string, Controller>,
                  all: map<string, Controller>, was: Pool, built: Pool)
    requires Shape(pool, tags, now, all, was, built) && Shows(all, Mixed(was, built)) && Engines.Valid(built)
    ensures Shows(now, Bundles(built)) && Named(tags, built)
  {
    hide Family;
    Restricted(all, now, Mixed(was, built), Bundles(built));
  }

  lemma RemoveShows(ctl: map<string, Controller>, p: Pool, k: string)
    requires Shows(ctl, Bundles(p))
    ensures Shows(ctl - {k}, Bundles(p - {k}))
  {
    hide Family;
    Restricted(ctl, ctl - {k}, Bundles(p), Bundles(p - {k}));
  }

  /** Dropping controllers leaves the rest of the family. */
  lemma Restricted(ctl: map<string, Controller>, part: map<string, Controller>, views: map<string, Bundle>,
                   partViews: map<string, Bundle>)
    requires Shows(ctl, views) && part.Keys == partViews.Keys
    requires forall k :: k in part ==> k in ctl && part[k] == ctl[k] && k in views && partViews[k] == views[k]
    ensures Shows(part, partViews)
  {
  }

  lemma MixedTurn(cmd: Command, was: Pool, built: Pool, id: Handle, service: Service, config: Config, birth: nat,
                  env: Env)
    ensures var k := Key(id); var views := Emplaced(Mixed(was, built), k);
      Mixed(was, Turn(cmd, was, built, id, service, config, birth, env))
      == views[k := Apply(cmd, k in was, views[k], config, service, birth, LateFor(env, k))]
  {
    hide Apply;
    var k := Key(id);
    var views := Emplaced(Mixed(was, built), k);
    var l := Mixed(was, Turn(cmd, was, built, id, service, config, birth, env));
    var r := views[k := Apply(cmd, k in was, views[k], config, service, birth, LateFor(env, k))];
    assert l.Keys == r.Keys;
  }

  /** The new pool `now` with its keys `tags`, and all controllers in play, in the middle of a bulk command. */
  ghost predicate Shape(pool: map<string, Controller>, tags: map<string, Handle>, now: map<string, Controller>,
                        all: map<string, Controller>, was: Pool, built: Pool) {
    && pool.Keys == was.Keys && tags.Keys == now.Keys == built.Keys
    && (forall k :: k in pool ==> k in all && all[k] == pool[k])
    && (forall k :: k in now ==> k in all && all[k] == now[k])
    && (forall k :: k in tags ==> tags[k] == built[k].handle)
  }

  lemma ShapeTurn(cmd: Command, id: Handle, service: Service, config: Config, birth: nat, env: Env,
                  pool: map<string, Controller>, tags: map<string, Handle>, now: map<string, Controller>,
                  all: map<string, Controller>, was: Pool, built: Pool, c: Controller)
    requires Shape(pool, tags, now, all, was, built) && all.Keys == pool.Keys + now.Keys
    requires Key(id) in all ==> c == all[Key(id)]
    ensures var k := Key(id);
      Shape(pool, if k in tags then tags else tags[k := id], now[k := c], all[k := c], was,
        Turn(cmd, was, built, id, service, config, birth, env))
  {
    hide Apply;
  }

  class Engine {
    var names: map<string, Handle>       // the keys of m_pool
    var pool: map<string, Controller>    // and its values
    ghost var contents: Pool
    ghost var repr: set<object>

    ghost predicate Valid()
      reads this, repr
    {
      && this !in repr && (forall k :: k in pool ==> pool[k] in repr && pool[k].repr <= repr)
      && Named(names, contents)
      && Shows(pool, Bundles(contents))
    }

    constructor ()
      ensures Valid() && contents == map[]
    {
      names, pool, contents, repr := map[], map[], map[], {};
    }

    ghost predicate Midway(tags: map<string, Handle>, now: map<string, Controller>, all: map<string, Controller>,
                           was: Pool, built: Pool)
      reads this, all.Values, set k, o | k in all && o in all[k].repr :: o
    {
      Shape(pool, tags, now, all, was, built) && Shows(all, Mixed(was, built))
    }

    /** emplace(): the controller of the key, from the new pool, the old pool, or made. */
    method Emplace(k: string, tags: map<string, Handle>, now: map<string, Controller>,
                   ghost all: map<string, Controller>, ghost was: Pool, ghost built: Pool, ghost space: set<object>)
      returns (c: Controller, ghost all': map<string, Controller>)
      requires Midway(tags, now, all, was, built) && Within(all, space)
      ensures all.Keys == pool.Keys + now.Keys && pool.Keys == was.Keys && all' == all[k := c]
      ensures k in all ==> c == all[k]
      ensures (c in space || fresh(c)) && c.repr <= space && Within(all', space + {c})
      ensures Shows(all', Emplaced(Mixed(was, built), k))
    {
      hide Family;
      if k in now {
        c := now[k];
        assert all[k := c] == all;
      } else if k in pool {
        c := pool[k];
        assert all[k := c] == all;
      } else {
        c := AddNew(all, k, Mixed(was, built));
      }
      all' := all[k := c];
    }

    /** One turn: emplace() the entry of the service and visit its controller. */
    method TurnOne(cmd: Command, id: Handle, service: Service, config: Config, birth: nat, env: Env,
                   tags: map<string, Handle>, now: map<string, Controller>,
                   ghost all: map<string, Controller>, ghost was: Pool, ghost built: Pool, ghost space: set<object>)
      returns (tags': map<string, Handle>, now': map<string, Controller>, ghost all': map<string, Controller>,
               ghost space': set<object>)
      requires Midway(tags, now, all, was, built) && Within(all, space) && this !in space
      modifies space
      ensures Midway(tags', now', all', was, Turn(cmd, was, built, id, service, config, birth, env))
      ensures Within(all', space') && forall o :: o in space' ==> o in space || fresh(o)
    {
      hide Turn, Perform, Mixed, Family, Shape, Emplaced, LateFor, Within, ActOf, State, Shows;
      var k := Key(id);
      var c;
      c, all' := Emplace(k, tags, now, all, was, built, space);
      ShowsAt(all', Emplaced(Mixed(was, built), k), k);
      ShapeTurn(cmd, id, service, config, birth, env, pool, tags, now, all, was, built, c);
      MixedTurn(cmd, was, built, id, service, config, birth, env);
      var state := c.CurrentState();
      var act := ActOf(cmd, k in pool, state, service.autostart);
      ghost var views := Emplaced(Mixed(was, built), k);
      space' := VisitWithin(act, c, config, service, birth, LateFor(env, k), all', k, views, space + {c});
      tags', now' := if k in tags then tags else tags[k := id], now[k := c];
    }

    /** engage(), adjust() and unplug() for all services, with the configuration they have loaded. */
    method Bulk(cmd: Command, list: Listing, config: Config, birth: nat, env: Env)
      requires Valid()
      modifies this, repr
      ensures Valid() && contents == Built(cmd, old(contents), list, config, birth, env)
      ensures forall o :: o in repr ==> o in old(repr) || fresh(o)
    {
      hide Turn, Shows, Mixed, Bundles, Within, Family;
      ghost var was := contents;
      ghost var built: Pool := map[];
      ghost var all, space := pool, repr;
      var tags: map<string, Handle> := map[];
      var now: map<string, Controller> := map[];
      BundlesUpdate(was, "", Entry(Handle("", ""), map[]));
      ShowsKeys(pool, Bundles(was));
      Room();
      BundlesKeys(was);
      for i := 0 to |list|
        invariant pool == old(pool) && this !in space
        invariant built == Built(cmd, was, list[..i], config, birth, env)
        invariant Midway(tags, now, all, was, built) && Within(all, space)
        invariant forall o :: o in space ==> o in old(repr) || fresh(o)
      {
        assert list[..i + 1][..i] == list[..i];
        var id, service := list[i].0, list[i].1;
        tags, now, all, space := TurnOne(cmd, id, service, config, birth, env, tags, now, all, was, built, space);
        built := Turn(cmd, was, built, id, service, config, birth, env);
      }
      assert list[..|list|] == list;
      BuiltKeys(cmd, was, list, config, birth, env);
      Swap(tags, now, all, was, built, space);
    }

    /** std::swap of the pools: what is not in the new one is dropped. */
    method Swap(tags: map<string, Handle>, now: map<string, Controller>, ghost all: map<string, Controller>,
                ghost was: Pool, ghost built: Pool, ghost space: set<object>)
      requires Midway(tags, now, all, was, built) && Within(all, space) && this !in space && Engines.Valid(built)
      modifies this
      ensures Valid() && contents == built && repr == space
    {
      hide Family, Shows, Mixed, Bundles, Named, Engines.Valid;
      SwapShows(tags, now, pool, all, was, built);
      names, pool, contents, repr := tags, now, built, space;
    }

    /** The single engage(), adjust() and unplug(), with the service they have loaded; false if they throw. */
    method One(cmd: Command, id: Handle, service: Service, config: Config, birth: nat, env: Env) returns (ok: bool)
      requires Valid()
      modifies this, repr
      ensures Valid() && contents == PoolAfter(cmd, old(contents), id, service, config, birth, env)
      ensures ok == Single(cmd, old(contents), id, service, config, birth, env).Ok?
      ensures forall o :: o in repr ==> o in old(repr) || fresh(o)
    {
      hide Perform, Family, SingleAct, Shows, State, Bundles, Named, RestartedBundle;
      var k := Key(id);
      Present(k);
      ok := service.name != "" || !cmd.Engage?;
      if service.name == "" {
        Remove(k);
      } else if !cmd.Unplug? || k in pool {
        var found := k in pool;
        if !found {
          Insert(id);
        }
        Present(k);
        var state := pool[k].CurrentState();
        var act := SingleAct(cmd, found, state, service.autostart);
        VisitAt(act, k, service, config, birth, LateFor(env, k));
      }
    }

    lemma Present(k: string)
      requires Valid()
      ensures k in pool <==> k in contents
      ensures k in pool ==> pool[k].Valid() && pool[k].View() == contents[k].bundle
    {
    }

    lemma Room()
      requires Valid()
      ensures Within(pool, repr)
    {
    }

    method Remove(k: string)
      requires Valid()
      modifies this
      ensures Valid() && contents == old(contents) - {k} && repr == old(repr)
    {
      hide Family, Shows, Bundles, Named;
      RemoveShows(pool, contents, k);
      NamedUpdate(names, contents, k, Entry(Handle(k, ""), map[]));
      names, pool, contents := names - {k}, pool - {k}, contents - {k};
    }

    method Insert(id: Handle)
      requires Valid() && Key(id) !in pool
      modifies this
      ensures Valid() && contents == old(contents)[Key(id) := Entry(id, map[])]
      ensures forall o :: o in repr ==> o in old(repr) || fresh(o)
    {
      hide Family, Bundles, Mixed, Named, Shows;
      var k := Key(id);
      Present(k);
      NamedUpdate(names, contents, k, Entry(id, map[]));
      BundlesUpdate(contents, k, Entry(id, map[]));
      var c := AddNew(pool, k, Bundles(contents));
      names, pool, contents, repr := names[k := id], pool[k := c], contents[k := Entry(id, map[])], repr + {c};
    }

    method VisitAt(act: Act, k: string, service: Service, config: Config, birth: nat, late: string -> Choice)
      requires Valid() && k in pool && k in contents
      modifies this, repr
      ensures var b := Perform(act, old(contents)[k].bundle, config, service, birth, late);
        Valid() && contents == old(contents)[k := old(contents)[k].(bundle := b)]
      ensures forall o :: o in repr ==> o in old(repr) || fresh(o)
    {
      hide Perform, Family, Mixed, Bundles, Named, Shows;
      var e := contents[k].(bundle := Perform(act, contents[k].bundle, config, service, birth, late));
      BundlesUpdate(contents, k, e);
      BundlesKeys(contents);
      NamedSame(names, contents, k, e.bundle);
      repr := VisitWithin(act, pool[k], config, service, birth, late, pool, k, Bundles(contents), repr);
      contents := contents[k := e];
    }
  }

  lemma ShowsKeys(ctl: map<string, Controller>, views: map<string, Bundle>)
    requires Shows(ctl, views)
    ensures ctl.Keys == views.Keys
  {
  }

  lemma ShowsAt(ctl: map<string, Controller>, views: map<string, Bundle>, k: string)
    requires Shows(ctl, views) && k in ctl
    ensures k in views && ctl[k].Valid() && ctl[k].View() == views[k]
  {
  }

  lemma BundlesKeys(p: Pool)
    ensures Bundles(p).Keys == p.Keys
    ensures forall k :: k in p ==> Bundles(p)[k] == p[k].bundle
  {
  }
}
