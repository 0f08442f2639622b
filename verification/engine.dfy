/**
 The engine of src/backend/server.cpp: the pool of controllers and its reconciliation with the configuration.
 */
module Handles {
  import opened Order

  /** A service as clients name it: the pier that provides it and its name there. */
  datatype Handle = Handle(pier: string, service: string)

  function Key(h: Handle): string {
    h.pier + h.service
  }

  /** handle::operator<, by which std::map orders and identifies its keys. */
  predicate Before(a: Handle, b: Handle) {
    Less(Key(a), Key(b))
  }

  /** A map takes two handles for the same key exactly when their concatenations coincide. */
  lemma SameKey(a: Handle, b: Handle)
    ensures !Before(a, b) && !Before(b, a) <==> Key(a) == Key(b)
  {
    LessTrichotomy(Key(a), Key(b));
  }

  /** Different handles can be the same key. */
  lemma KeysClash()
    ensures exists a: Handle, b: Handle :: a != b && !Before(a, b) && !Before(b, a)
  {
    var a, b := Handle("o/p", "qs"), Handle("o/pq", "s");
    assert Key(a) == Key(b) == "o/pqs";
    SameKey(a, b);
  }
}

module Engines {
  import opened Settings
  import opened Connectors
  import opened Controllers
  import opened Handles
  import opened Files

  /** A key of m_pool together with the connectors of the controller it is mapped to. */
  datatype Entry = Entry(handle: Handle, bundle: Bundle)

  /** m_pool, by concatenation of pier and service. */
  type Pool = map<string, Entry>

  datatype Command = Unplug | Engage | Adjust

  /** The configuration file and all services of the repository, in the order of the loader's map. */
  type Listing = seq<(Handle, Service)>

  /** What the join of a replaced negotiation turns out to post, by service key and pier. */
  type Env = (string, string) -> Choice

  predicate Valid(pool: Pool) {
    forall k :: k in pool ==> Key(pool[k].handle) == k
  }

  /** What a command makes of a controller. */
  datatype Act = Reboot | Suspend | Leave

  /** The choice a bulk command makes for a configured service; `found` if m_pool had it already. */
  function ActOf(cmd: Command, found: bool, state: Status, autostart: bool): Act {
    match cmd
    case Unplug => if found && state != Asleep then Suspend else Leave
    case Engage => if autostart then Reboot else if found && state == Asleep then Leave else Suspend
    case Adjust =>
      if found then if state != Asleep then Reboot else Leave
      else if autostart then Reboot else Suspend
  }

  /** The choice of a command for a single handle. */
  function SingleAct(cmd: Command, found: bool, state: Status, autostart: bool): Act {
    match cmd
    case Unplug => if found && state != Asleep then Suspend else Leave
    case Engage => Reboot
    case Adjust => ActOf(Adjust, found, state, autostart)
  }

  function Perform(act: Act, b: Bundle, config: Config, service: Service, birth: nat, late: string -> Choice): Bundle {
    match act
    case Reboot => RestartedBundle(b, config, service, birth, late)
    case Suspend => map[]
    case Leave => b
  }

  function Apply(cmd: Command, found: bool, b: Bundle, config: Config, service: Service, birth: nat,
                 late: string -> Choice): Bundle {
    Perform(ActOf(cmd, found, State(b), service.autostart), b, config, service, birth, late)
  }

  function LateFor(env: Env, key: string): string -> Choice {
    (pier: string) => env(key, pier)
  }

  /**
   One turn of the loop over the configured services: `was` is m_pool, `now` the pool being built. emplace()
   keeps an entry that has the same key already, and both pools share the controller.
   */
  function Turn(cmd: Command, was: Pool, now: Pool, id: Handle, service: Service, config: Config, birth: nat,
                env: Env): Pool {
    var k := Key(id);
    var handle := if k in now then now[k].handle else id;
    var b := if k in now then now[k].bundle else if k in was then was[k].bundle else map[];
    now[k := Entry(handle, Apply(cmd, k in was, b, config, service, birth, LateFor(env, k)))]
  }

  function Built(cmd: Command, was: Pool, list: Listing, config: Config, birth: nat, env: Env): Pool {
    if list == [] then map[] else
      var last := list[|list| - 1];
      Turn(cmd, was, Built(cmd, was, list[..|list| - 1], config, birth, env), last.0, last.1, config, birth, env)
  }

  /** The single loader over a listing: the service of the handle, or a default-made one. */
  function Find(list: Listing, id: Handle): Service {
    if list == [] then EMPTY_SERVICE else if list[0].0 == id then list[0].1 else Find(list[1..], id)
  }

  /** A command for one handle whose service is loaded as `service`; engaging a missing one is an error. */
  function Single(cmd: Command, pool: Pool, id: Handle, service: Service, config: Config, birth: nat,
                  env: Env): Result<Pool> {
    var k := Key(id);
    if service.name == "" then
      if cmd.Engage? then Err("wrong service") else Ok(pool - {k})
    else if cmd.Unplug? && k !in pool then Ok(pool)
    else
      var e := if k in pool then pool[k] else Entry(id, map[]);
      var act := SingleAct(cmd, k in pool, State(e.bundle), service.autostart);
      Ok(pool[k := e.(bundle := Perform(act, e.bundle, config, service, birth, LateFor(env, k)))])
  }

  /** The pool after a single command, also when it ends in an exception. */
  function PoolAfter(cmd: Command, pool: Pool, id: Handle, service: Service, config: Config, birth: nat,
                     env: Env): Pool {
    var r := Single(cmd, pool, id, service, config, birth, env);
    if r.Ok? then r.value else pool - {Key(id)}
  }

  function AdjustEach(pool: Pool, order: seq<Handle>, list: Listing, config: Config, birth: nat, env: Env): Pool {
    if order == [] then pool else
      var last := order[|order| - 1];
      var front := AdjustEach(pool, order[..|order| - 1], list, config, birth, env);
      PoolAfter(Adjust, front, last, Find(list, last), config, birth, env)
  }

  // ---------------------------------------------------------------------------------------------------------
  // Keys
  // ---------------------------------------------------------------------------------------------------------

  predicate Configured(list: Listing, h: Handle) {
    exists i :: 0 <= i < |list| && list[i].0 == h
  }

  predicate Pooled(pool: Pool, h: Handle) {
    Key(h) in pool && pool[Key(h)].handle == h
  }

  /** No two entries of the listing have the same concatenation of pier and service. */
  predicate NoClash(list: Listing) {
    forall i, j :: 0 <= i < j < |list| ==> Key(list[i].0) != Key(list[j].0)
  }

  /** Different configured handles have different concatenations. */
  predicate Unambiguous(list: Listing) {
    forall i, j :: 0 <= i < |list| && 0 <= j < |list| && Key(list[i].0) == Key(list[j].0) ==> list[i].0 == list[j].0
  }

  lemma {:induction false} BuiltKeys(cmd: Command, was: Pool, list: Listing, config: Config, birth: nat, env: Env)
    ensures var now := Built(cmd, was, list, config, birth, env);
      && Valid(now)
      && (forall k :: k in now ==> Configured(list, now[k].handle))
      && (forall i :: 0 <= i < |list| ==> Key(list[i].0) in now)
  {
    hide Apply;
    if list != [] {
      var n := |list| - 1;
      BuiltKeys(cmd, was, list[..n], config, birth, env);
      var before := Built(cmd, was, list[..n], config, birth, env);
      var now := Built(cmd, was, list, config, birth, env);
      forall k | k in now ensures Key(now[k].handle) == k && Configured(list, now[k].handle) {
        if k in before {
          var i :| 0 <= i < n && list[..n][i].0 == before[k].handle;
          assert list[i].0 == now[k].handle;
        } else {
          assert list[n].0 == now[k].handle;
        }
      }
      forall i | 0 <= i < |list| ensures Key(list[i].0) in now {
        if i < n { assert list[..n][i] == list[i]; }
      }
    }
  }

  /** After a bulk command the pool holds exactly the configured handles, if and only if those are unambiguous. */
  lemma BulkKeys(cmd: Command, was: Pool, list: Listing, config: Config, birth: nat, env: Env)
    ensures var now := Built(cmd, was, list, config, birth, env);
      (forall h :: Pooled(now, h) <==> Configured(list, h)) <==> Unambiguous(list)
  {
    var now := Built(cmd, was, list, config, birth, env);
    BuiltKeys(cmd, was, list, config, birth, env);
    if Unambiguous(list) {
      forall h ensures Pooled(now, h) <==> Configured(list, h) {
        if Configured(list, h) {
          var i :| 0 <= i < |list| && list[i].0 == h;
          var j :| 0 <= j < |list| && list[j].0 == now[Key(h)].handle;
        }
      }
    } else {
      var i, j :| 0 <= i < |list| && 0 <= j < |list| && Key(list[i].0) == Key(list[j].0) && list[i].0 != list[j].0;
      assert Configured(list, list[i].0) && Configured(list, list[j].0);
      assert !(Pooled(now, list[i].0) && Pooled(now, list[j].0));
    }
  }

  lemma FrontNoClash(list: Listing)
    requires NoClash(list) && list != []
    ensures var n := |list| - 1;
      NoClash(list[..n]) && forall i :: 0 <= i < n ==> list[..n][i] == list[i] && Key(list[i].0) != Key(list[n].0)
  {
  }

  lemma NewKey(list: Listing, now: Pool)
    requires NoClash(list) && list != [] && Valid(now)
    requires forall k :: k in now ==> Configured(list[..|list| - 1], now[k].handle)
    ensures Key(list[|list| - 1].0) !in now
  {
  }

  /** Without clashes a bulk command treats every configured service on its own, starting from the old pool. */
  lemma {:induction false} BuiltAt(cmd: Command, was: Pool, list: Listing, config: Config, birth: nat, env: Env, i: nat)
    requires NoClash(list) && i < |list|
    ensures var k := Key(list[i].0); var now := Built(cmd, was, list, config, birth, env);
      k in now && now[k] == Entry(list[i].0,
        Apply(cmd, k in was, if k in was then was[k].bundle else map[], config, list[i].1, birth, LateFor(env, k)))
  {
    hide Apply, LateFor, NoClash, Configured;
    var n := |list| - 1;
    var front := list[..n];
    FrontNoClash(list);
    if i < n {
      BuiltAt(cmd, was, front, config, birth, env, i);
    } else {
      BuiltKeys(cmd, was, front, config, birth, env);
      NewKey(list, Built(cmd, was, front, config, birth, env));
    }
  }

  // ---------------------------------------------------------------------------------------------------------
  // Bulk adjust against single adjusts
  // ---------------------------------------------------------------------------------------------------------

  predicate DistinctKeys(order: seq<Handle>) {
    forall i, j :: 0 <= i < j < |order| ==> Key(order[i]) != Key(order[j])
  }

  predicate NamesAreSet(list: Listing) {
    forall i :: 0 <= i < |list| ==> list[i].1.name != ""
  }

  lemma {:induction false} FindConfigured(list: Listing, id: Handle)
    requires NoClash(list)
    ensures Configured(list, id) <==> exists i :: 0 <= i < |list| && list[i] == (id, Find(list, id))
    ensures !Configured(list, id) ==> Find(list, id) == EMPTY_SERVICE
  {
    if list != [] {
      var tail := list[1..];
      assert NoClash(tail) by { assert forall j :: 0 <= j < |tail| ==> tail[j] == list[j + 1]; }
      FindConfigured(tail, id);
      if list[0].0 == id {
        assert list[0] == (id, Find(list, id));
      } else if Configured(list, id) {
        var i :| 0 <= i < |list| && list[i].0 == id;
        assert tail[i - 1].0 == id;
        var j :| 0 <= j < |tail| && tail[j] == (id, Find(tail, id));
        assert list[j + 1] == (id, Find(list, id));
      }
    }
  }

  /** What one single adjust leaves under its own key. */
  function Adjusted(pool: Pool, id: Handle, service: Service, config: Config, birth: nat, env: Env): Entry {
    var k := Key(id);
    var e := if k in pool then pool[k] else Entry(id, map[]);
    e.(bundle := Apply(Adjust, k in pool, e.bundle, config, service, birth, LateFor(env, k)))
  }

  lemma AdjustOneAt(pool: Pool, id: Handle, service: Service, config: Config, birth: nat, env: Env, k: string)
    ensures var r := PoolAfter(Adjust, pool, id, service, config, birth, env);
      if Key(id) != k then (k in r <==> k in pool) && (k in r ==> r[k] == pool[k])
      else (k in r <==> service.name != "") && (k in r ==> r[k] == Adjusted(pool, id, service, config, birth, env))
  {
    hide Perform, LateFor;
  }

  lemma {:induction false} AdjustEachAt(pool: Pool, order: seq<Handle>, list: Listing, config: Config, birth: nat,
                                        env: Env, k: string)
    requires DistinctKeys(order)
    ensures var r := AdjustEach(pool, order, list, config, birth, env);
      && ((forall i :: 0 <= i < |order| ==> Key(order[i]) != k) ==>
           (k in r <==> k in pool) && (k in r ==> r[k] == pool[k]))
      && (forall i :: 0 <= i < |order| && Key(order[i]) == k ==>
           (k in r <==> Find(list, order[i]).name != "")
           && (k in r ==> r[k] == Adjusted(pool, order[i], Find(list, order[i]), config, birth, env)))
  {
    hide PoolAfter, LateFor, Find, Apply;
    if order != [] {
      var n := |order| - 1;
      var front := order[..n];
      assert forall j :: 0 <= j < n ==> front[j] == order[j];
      var before := AdjustEach(pool, front, list, config, birth, env);
      AdjustOneAt(before, order[n], Find(list, order[n]), config, birth, env, k);
      AdjustEachAt(pool, front, list, config, birth, env, k);
      if Key(order[n]) == k {
        assert forall i :: 0 <= i < |front| ==> Key(front[i]) != k;
      }
    }
  }

  /** The bulk adjust is the single adjusts of all pooled and configured handles, in any order. */
  lemma BulkIsSingles(pool: Pool, order: seq<Handle>, list: Listing, config: Config, birth: nat, env: Env)
    requires Valid(pool) && NoClash(list) && NamesAreSet(list) && DistinctKeys(order)
    requires forall k :: k in pool ==> pool[k].handle in order
    requires forall i :: 0 <= i < |list| ==> list[i].0 in order
    ensures AdjustEach(pool, order, list, config, birth, env) == Built(Adjust, pool, list, config, birth, env)
  {
    hide Apply, LateFor, Find, AdjustEach, Built;
    var l, r := AdjustEach(pool, order, list, config, birth, env), Built(Adjust, pool, list, config, birth, env);
    forall k ensures (k in l <==> k in r) && (k in l ==> l[k] == r[k]) {
      BulkIsSinglesAt(pool, order, list, config, birth, env, k);
    }
    assert l.Keys == r.Keys;
  }

  lemma BulkIsSinglesAt(pool: Pool, order: seq<Handle>, list: Listing, config: Config, birth: nat, env: Env, k: string)
    requires Valid(pool) && NoClash(list) && NamesAreSet(list) && DistinctKeys(order)
    requires forall k :: k in pool ==> pool[k].handle in order
    requires forall i :: 0 <= i < |list| ==> list[i].0 in order
    ensures var l := AdjustEach(pool, order, list, config, birth, env);
      var r := Built(Adjust, pool, list, config, birth, env);
      (k in l <==> k in r) && (k in l ==> l[k] == r[k])
  {
    hide Apply, LateFor, Find, AdjustEach, Built;
    AdjustEachAt(pool, order, list, config, birth, env, k);
    BuiltKeys(Adjust, pool, list, config, birth, env);
    var r := Built(Adjust, pool, list, config, birth, env);
    if i :| 0 <= i < |order| && Key(order[i]) == k {
      FindConfigured(list, order[i]);
      if Configured(list, order[i]) {
        var j :| 0 <= j < |list| && list[j] == (order[i], Find(list, order[i]));
        BuiltAt(Adjust, pool, list, config, birth, env, j);
        if k in pool {
          var m :| 0 <= m < |order| && order[m] == pool[k].handle;
          assert m == i;
        }
      }
    }
  }

  /** A pooled handle and a configured one with the same concatenation are the same. */
  predicate Compatible(pool: Pool, list: Listing) {
    forall k, i :: k in pool && 0 <= i < |list| && Key(list[i].0) == k ==> pool[k].handle == list[i].0
  }

  /** Every pooled and every configured handle once, and no other. */
  predicate Enumerates(order: seq<Handle>, pool: Pool, list: Listing) {
    && (forall i, j :: 0 <= i < j < |order| ==> order[i] != order[j])
    && (forall k :: k in pool ==> pool[k].handle in order)
    && (forall i :: 0 <= i < |list| ==> list[i].0 in order)
    && (forall i :: 0 <= i < |order| ==> Pooled(pool, order[i]) || Configured(list, order[i]))
  }

  lemma EnumerationsAreDistinct(pool: Pool, list: Listing, order: seq<Handle>)
    requires Valid(pool) && NoClash(list) && Compatible(pool, list) && Enumerates(order, pool, list)
    ensures DistinctKeys(order)
  {
    forall i, j | 0 <= i < j < |order| ensures Key(order[i]) != Key(order[j]) {
      if Key(order[i]) == Key(order[j]) { OneHandle(pool, list, order[i], order[j]); }
    }
  }

  lemma OneHandle(pool: Pool, list: Listing, g: Handle, h: Handle)
    requires Valid(pool) && NoClash(list) && Compatible(pool, list) && Key(g) == Key(h)
    requires (Pooled(pool, g) || Configured(list, g)) && (Pooled(pool, h) || Configured(list, h))
    ensures g == h
  {
  }

  /** Any finite set of handles in some order. */
  lemma InOrder(s: set<Handle>) returns (order: seq<Handle>)
    ensures forall h :: h in order <==> h in s
    ensures forall i, j :: 0 <= i < j < |order| ==> order[i] != order[j]
    decreases |s|
  {
    order := [];
    if s != {} {
      var h :| h in s;
      var rest := InOrder(s - {h});
      order := rest + [h];
    }
  }

  function HandlesOf(pool: Pool, list: Listing): set<Handle> {
    (set k | k in pool :: pool[k].handle) + (set i | 0 <= i < |list| :: list[i].0)
  }

  lemma EnumeratesAll(order: seq<Handle>, pool: Pool, list: Listing)
    requires Valid(pool)
    requires forall i, j :: 0 <= i < j < |order| ==> order[i] != order[j]
    requires forall h :: h in order <==> h in HandlesOf(pool, list)
    ensures Enumerates(order, pool, list)
  {
    forall i | 0 <= i < |order| ensures Pooled(pool, order[i]) || Configured(list, order[i]) {
      assert order[i] in HandlesOf(pool, list);
    }
  }

  lemma StaleIsEmpty(pool: Pool, list: Listing, k: string, i: nat)
    requires Valid(pool) && NoClash(list)
    requires k in pool && i < |list| && Key(list[i].0) == k && pool[k].handle != list[i].0
    ensures pool[k].handle in HandlesOf(pool, list) && Key(pool[k].handle) == k
    ensures Find(list, pool[k].handle) == EMPTY_SERVICE
  {
    hide Find;
    assert !Configured(list, pool[k].handle) by { KeyIsTaken(pool, list, k, i); }
    FindConfigured(list, pool[k].handle);
  }

  lemma KeyIsTaken(pool: Pool, list: Listing, k: string, i: nat)
    requires Valid(pool) && NoClash(list)
    requires k in pool && i < |list| && Key(list[i].0) == k && pool[k].handle != list[i].0
    ensures !Configured(list, pool[k].handle)
  {
    forall j | 0 <= j < |list| ensures list[j].0 != pool[k].handle {
      assert Key(pool[k].handle) == k;
      if i < j { assert Key(list[i].0) != Key(list[j].0); }
      if j < i { assert Key(list[j].0) != Key(list[i].0); }
    }
  }

  /** Adjusting a stale handle last drops the configured service that has its key. */
  lemma StaleLast(pool: Pool, list: Listing, config: Config, birth: nat, env: Env) returns (order: seq<Handle>)
    requires Valid(pool) && NoClash(list) && !Compatible(pool, list)
    ensures Enumerates(order, pool, list)
    ensures AdjustEach(pool, order, list, config, birth, env) != Built(Adjust, pool, list, config, birth, env)
  {
    hide PoolAfter, Built, Enumerates, NoClash, HandlesOf, Adjusted, Find;
    var k, i :| k in pool && 0 <= i < |list| && Key(list[i].0) == k && pool[k].handle != list[i].0;
    var stale := pool[k].handle;
    var all := HandlesOf(pool, list);
    var front := InOrder(all - {stale});
    order := front + [stale];
    StaleIsEmpty(pool, list, k, i);
    forall h ensures h in order <==> h in all { assert h in order <==> h in front || h == stale; }
    EnumeratesAll(order, pool, list);
    assert order[..|order| - 1] == front;
    BuiltKeys(Adjust, pool, list, config, birth, env);
    var before := AdjustEach(pool, front, list, config, birth, env);
    AdjustOneAt(before, stale, Find(list, stale), config, birth, env, k);
  }

  /**
   Exactly when the order does not matter: the single adjusts of all pooled and configured handles leave the pool of
   the bulk adjust in every order if and only if no stale handle has the key of another, configured one.
   */
  lemma SinglesExactly(pool: Pool, list: Listing, config: Config, birth: nat, env: Env)
    requires Valid(pool) && NoClash(list) && NamesAreSet(list)
    ensures Compatible(pool, list) <==>
      forall order :: Enumerates(order, pool, list) ==>
        AdjustEach(pool, order, list, config, birth, env) == Built(Adjust, pool, list, config, birth, env)
  {
    hide AdjustEach, Built, Compatible, NoClash, NamesAreSet, Valid, DistinctKeys;
    if Compatible(pool, list) {
      forall order | Enumerates(order, pool, list)
        ensures AdjustEach(pool, order, list, config, birth, env) == Built(Adjust, pool, list, config, birth, env)
      {
        EnumerationsAreDistinct(pool, list, order);
        BulkIsSingles(pool, order, list, config, birth, env);
      }
    } else {
      var order := StaleLast(pool, list, config, birth, env);
    }
  }

  /** There are such a pool and listing, and an order in which the single adjusts differ from the bulk adjust. */
  lemma OrderCanMatter(config: Config, birth: nat, env: Env)
    ensures exists pool, list, order ::
      && Valid(pool) && NoClash(list) && NamesAreSet(list) && Enumerates(order, pool, list)
      && AdjustEach(pool, order, list, config, birth, env) != Built(Adjust, pool, list, config, birth, env)
  {
    hide AdjustEach, Built, Enumerates;
    var stale, present := Handle("o/p", "qs"), Handle("o/pq", "s");
    assert Key(stale) == Key(present) == "o/pqs";
    var pool: Pool := map["o/pqs" := Entry(stale, map[])];
    var list: Listing := [(present, EMPTY_SERVICE.(name := "s"))];
    assert !Compatible(pool, list) by {
      assert "o/pqs" in pool && Key(list[0].0) == "o/pqs" && pool["o/pqs"].handle != list[0].0 by {
        assert stale.service != present.service by { assert |stale.service| != |present.service|; }
      }
    }
    var order := StaleLast(pool, list, config, birth, env);
  }

  // ---------------------------------------------------------------------------------------------------------
  // Carriers across a bulk command
  // ---------------------------------------------------------------------------------------------------------

  predicate AllSound(pool: Pool) {
    forall k, pier :: k in pool && pier in pool[k].bundle ==> Sound(pool[k].bundle[pier])
  }

  /** Carrier `pid` of service `h` for `pier` is alive: a connector in the pool owns it. */
  predicate Carrier(pool: Pool, h: Handle, pier: string, pid: nat) {
    Pooled(pool, h) && pier in pool[Key(h)].bundle && pid in pool[Key(h)].bundle[pier].tunnels
  }

  /** Whether a bulk command lets a running service go on. */
  predicate Continues(cmd: Command, service: Service) {
    cmd.Adjust? || (cmd.Engage? && service.autostart)
  }

  lemma ApplyCarriers(cmd: Command, found: bool, b: Bundle, config: Config, service: Service, birth: nat,
                      late: string -> Choice, pier: string, pid: nat)
    requires forall q :: q in b ==> Sound(b[q])
    requires found || b == map[]
    ensures var r := Apply(cmd, found, b, config, service, birth, late);
      pier in r && pid in r[pier].tunnels <==>
        Continues(cmd, service) && pier in Piers(service.pier) && pier in b && pid in b[pier].tunnels
  {
    hide RestartedBundle, Tunnels, Piers, State, Message, Sound;
    ReportsCoherent(b);
    RestartKeepsTunnels(b, config, service, birth, late);
    var r := RestartedBundle(b, config, service, birth, late);
    TunnelsComplete(b, Tunnel(pier, pid));
    TunnelsComplete(r, Tunnel(pier, pid));
  }

  /**
   Carriers are conserved: alive after a bulk command are exactly the earlier ones of services that are still
   configured and not to be stopped, for piers that are still on the service's list.
   */
  lemma BulkConservesCarriers(cmd: Command, pool: Pool, list: Listing, config: Config, birth: nat, env: Env,
                              h: Handle, pier: string, pid: nat)
    requires Valid(pool) && AllSound(pool) && NoClash(list) && Compatible(pool, list)
    ensures Carrier(Built(cmd, pool, list, config, birth, env), h, pier, pid) <==>
      Carrier(pool, h, pier, pid)
      && exists i :: 0 <= i < |list| && list[i].0 == h && Continues(cmd, list[i].1) && pier in Piers(list[i].1.pier)
  {
    hide Apply, Piers, LateFor, Built;
    var now := Built(cmd, pool, list, config, birth, env);
    BuiltKeys(cmd, pool, list, config, birth, env);
    if i :| 0 <= i < |list| && list[i].0 == h {
      BuiltAt(cmd, pool, list, config, birth, env, i);
      var k := Key(h);
      var b := if k in pool then pool[k].bundle else map[];
      ApplyCarriers(cmd, k in pool, b, config, list[i].1, birth, LateFor(env, k), pier, pid);
      forall j | 0 <= j < |list| && list[j].0 == h ensures j == i { assert Key(list[j].0) == Key(list[i].0); }
    }
  }

  /** What the commands make of waking and sleeping. */
  predicate Awake(pool: Pool, h: Handle) {
    Pooled(pool, h) && State(pool[Key(h)].bundle) != Asleep
  }

  /**
   After engage awake means autostart; after adjust known services keep their state and new ones follow
   autostart; after unplug all sleep.
   */
  lemma BulkAwake(cmd: Command, pool: Pool, list: Listing, config: Config, birth: nat, env: Env, i: nat)
    requires Valid(pool) && NoClash(list) && Compatible(pool, list) && i < |list|
    ensures var h := list[i].0; var now := Built(cmd, pool, list, config, birth, env);
      Awake(now, h) <==>
        match cmd
        case Unplug => false
        case Engage => list[i].1.autostart
        case Adjust => if Pooled(pool, h) then Awake(pool, h) else list[i].1.autostart
  {
    hide Built;
    BuiltAt(cmd, pool, list, config, birth, env, i);
    var k := Key(list[i].0);
    var b := if k in pool then pool[k].bundle else map[];
    ApplyAwake(cmd, k in pool, b, config, list[i].1, birth, LateFor(env, k));
  }

  lemma ApplyAwake(cmd: Command, found: bool, b: Bundle, config: Config, service: Service, birth: nat,
                   late: string -> Choice)
    requires found || b == map[]
    ensures State(Apply(cmd, found, b, config, service, birth, late)) != Asleep <==>
      match cmd
      case Unplug => false
      case Engage => service.autostart
      case Adjust => if found then State(b) != Asleep else service.autostart
  {
    hide State, RestartedBundle, Tunnels, Message;
    var r := RestartedBundle(b, config, service, birth, late);
    assert r.Keys != {};
    ReportsCoherent(b);
    ReportsCoherent(r);
    ReportsCoherent(map[]);
  }

  /** A command for one handle leaves every other key alone, and a missing service is always dropped. */
  lemma SingleIsLocal(cmd: Command, pool: Pool, id: Handle, service: Service, config: Config, birth: nat, env: Env)
    ensures var now := PoolAfter(cmd, pool, id, service, config, birth, env);
      && (forall k :: k != Key(id) ==> (k in now <==> k in pool) && (k in now ==> now[k] == pool[k]))
      && (service.name == "" ==> Key(id) !in now)
      && (service.name != "" ==> (Key(id) in now <==> Key(id) in pool || !cmd.Unplug?))
      && (Key(id) in now ==> now[Key(id)].handle == if Key(id) in pool then pool[Key(id)].handle else id)
      && (Valid(pool) ==> Valid(now))
  {
    hide Perform, SingleAct, LateFor, State;
  }

  /** The same for the connectors of one service, known to the pool or new. */
  lemma SinglePerforms(cmd: Command, found: bool, b: Bundle, config: Config, service: Service, birth: nat,
                       late: string -> Choice, pier: string, pid: nat)
    requires (forall q :: q in b ==> Sound(b[q])) && (found || b == map[])
    ensures var r := Perform(SingleAct(cmd, found, State(b), service.autostart), b, config, service, birth, late);
      && (State(r) != Asleep <==> match cmd
            case Unplug => false
            case Engage => true
            case Adjust => if found then State(b) != Asleep else service.autostart)
      && (pier in r && pid in r[pier].tunnels <==>
           pier in b && pid in b[pier].tunnels && !cmd.Unplug? && pier in Piers(service.pier))
  {
    hide State, Tunnels, Message, Sound, Piers, RestartedBundle;
    var r := RestartedBundle(b, config, service, birth, late);
    ReportsCoherent(b);
    ReportsCoherent(map[]);
    RestartKeepsTunnels(b, config, service, birth, late);
    TunnelsComplete(b, Tunnel(pier, pid));
    TunnelsComplete(r, Tunnel(pier, pid));
  }

  /**
   What a command for one handle makes of its own service: engage wakes it, unplug puts it to sleep, adjust keeps a
   known one as it is and has a new one follow autostart; carriers go on for the piers still listed, but for unplug.
   */
  lemma SingleOwn(cmd: Command, pool: Pool, id: Handle, service: Service, config: Config, birth: nat, env: Env,
                  pier: string, pid: nat)
    requires Valid(pool) && AllSound(pool) && service.name != ""
    requires Key(id) in pool ==> pool[Key(id)].handle == id
    ensures var now := PoolAfter(cmd, pool, id, service, config, birth, env);
      && (Awake(now, id) <==> match cmd
            case Unplug => false
            case Engage => true
            case Adjust => if Pooled(pool, id) then Awake(pool, id) else service.autostart)
      && (Carrier(now, id, pier, pid) <==> Carrier(pool, id, pier, pid) && !cmd.Unplug? && pier in Piers(service.pier))
  {
    hide State, Sound, Piers, Perform, SingleAct;
    var k := Key(id);
    var b := if k in pool then pool[k].bundle else map[];
    SinglePerforms(cmd, k in pool, b, config, service, birth, LateFor(env, k), pier, pid);
  }

  // ---------------------------------------------------------------------------------------------------------
  // What is restarted, and with what
  // ---------------------------------------------------------------------------------------------------------

  /** These are the connectors of a service that has been restarted, or none. */
  predicate Equipped(r: Bundle, restarted: bool, before: Bundle, config: Config, service: Service, birth: nat) {
    if !restarted then r == map[]
    else
      && r.Keys == Piers(service.pier)
      && forall pier :: pier in r ==> RestartedWith(r[pier], before, pier, config, service, birth)
  }

  lemma PerformEquips(act: Act, b: Bundle, config: Config, service: Service, birth: nat, late: string -> Choice)
    requires (forall q :: q in b ==> Sound(b[q])) && (act.Leave? ==> b == map[])
    ensures Equipped(Perform(act, b, config, service, birth, late), act.Reboot?, b, config, service, birth)
  {
    hide Sound, Piers, RestartedBundle, RestartedWith;
    RestartEquips(b, config, service, birth, late);
  }

  lemma AsleepIsEmpty(b: Bundle)
    ensures State(b) == Asleep <==> b == map[]
  {
    hide State;
    ReportsCoherent(b);
  }

  /** A bulk command restarts a service, with what has been loaded, or leaves it without connectors. */
  lemma BulkEquips(cmd: Command, pool: Pool, list: Listing, config: Config, birth: nat, env: Env, i: nat)
    requires Valid(pool) && AllSound(pool) && NoClash(list) && Compatible(pool, list) && i < |list|
    ensures var h, service := list[i].0, list[i].1;
      var now := Built(cmd, pool, list, config, birth, env);
      var before := if Key(h) in pool then pool[Key(h)].bundle else map[];
      var restarted := match cmd
        case Unplug => false
        case Engage => service.autostart
        case Adjust => if Pooled(pool, h) then Awake(pool, h) else service.autostart;
      Pooled(now, h) && Equipped(now[Key(h)].bundle, restarted, before, config, service, birth)
  {
    hide Built, Perform, State, Sound, Equipped;
    BuiltAt(cmd, pool, list, config, birth, env, i);
    var k := Key(list[i].0);
    var b := if k in pool then pool[k].bundle else map[];
    AsleepIsEmpty(b);
    PerformEquips(ActOf(cmd, k in pool, State(b), list[i].1.autostart), b, config, list[i].1, birth, LateFor(env, k));
  }

  /** So does a command for one handle. */
  lemma SingleEquips(cmd: Command, pool: Pool, id: Handle, service: Service, config: Config, birth: nat, env: Env)
    requires Valid(pool) && AllSound(pool) && service.name != ""
    requires Key(id) in pool ==> pool[Key(id)].handle == id
    ensures var now := PoolAfter(cmd, pool, id, service, config, birth, env);
      var before := if Key(id) in pool then pool[Key(id)].bundle else map[];
      var restarted := match cmd
        case Unplug => false
        case Engage => true
        case Adjust => if Pooled(pool, id) then Awake(pool, id) else service.autostart;
      && (Pooled(now, id) <==> Pooled(pool, id) || !cmd.Unplug?)
      && (Pooled(now, id) ==> Equipped(now[Key(id)].bundle, restarted, before, config, service, birth))
  {
    hide Perform, State, Sound, Equipped;
    var k := Key(id);
    var b := if k in pool then pool[k].bundle else map[];
    AsleepIsEmpty(b);
    PerformEquips(SingleAct(cmd, k in pool, State(b), service.autostart), b, config, service, birth, LateFor(env, k));
  }

  /** Whatever the pool was, after a bulk command every connector has the configuration that has been loaded. */
  lemma {:induction false} BulkConfigures(cmd: Command, pool: Pool, list: Listing, config: Config, birth: nat, env: Env,
                                          k: string, pier: string)
    requires AllSound(pool)
    ensures var now := Built(cmd, pool, list, config, birth, env);
      k in now && pier in now[k].bundle ==> Sound(now[k].bundle[pier]) && now[k].bundle[pier].config == config
  {
    hide Sound, Perform, State;
    if list != [] {
      var n := |list| - 1;
      BulkConfigures(cmd, pool, list[..n], config, birth, env, k, pier);
      var now := Built(cmd, pool, list[..n], config, birth, env);
      var key, service := Key(list[n].0), list[n].1;
      if k == key {
        var b := if k in now then now[k].bundle else if k in pool then pool[k].bundle else map[];
        forall q | q in b ensures Sound(b[q]) { BulkConfigures(cmd, pool, list[..n], config, birth, env, k, q); }
        AsleepIsEmpty(b);
        if cmd.Unplug? { AllUnplugged(pool, list[..n], config, birth, env, k); }
        var act := ActOf(cmd, k in pool, State(b), service.autostart);
        PerformConfigures(act, b, config, service, birth, LateFor(env, k));
      }
    }
  }

  lemma PerformConfigures(act: Act, b: Bundle, config: Config, service: Service, birth: nat, late: string -> Choice)
    requires (forall q :: q in b ==> Sound(b[q])) && (act.Leave? ==> b == map[])
    ensures var r := Perform(act, b, config, service, birth, late);
      forall pier :: pier in r ==> Sound(r[pier]) && r[pier].config == config
  {
    hide Piers, Restarted, Sound;
    if act.Reboot? {
      var r := RestartedBundle(b, config, service, birth, late);
      forall pier | pier in r ensures Sound(r[pier]) && r[pier].config == config {
        var c := if pier in b then b[pier] else Fresh(birth);
        assert Sound(c) by { FreshIsSound(birth); }
        RestartEffect(c, config, service.(pier := pier), late(pier));
      }
    }
  }

  /** An unplug leaves no connectors. */
  lemma {:induction false} AllUnplugged(pool: Pool, list: Listing, config: Config, birth: nat, env: Env, k: string)
    ensures var now := Built(Unplug, pool, list, config, birth, env); k in now ==> now[k].bundle == map[]
  {
    hide State;
    if list != [] {
      var n := |list| - 1;
      AllUnplugged(pool, list[..n], config, birth, env, k);
      var now := Built(Unplug, pool, list[..n], config, birth, env);
      AsleepIsEmpty(if k in now then now[k].bundle else if k in pool then pool[k].bundle else map[]);
    }
  }

  lemma SingleIsSound(cmd: Command, pool: Pool, id: Handle, service: Service, config: Config, birth: nat, env: Env)
    requires AllSound(pool)
    ensures AllSound(PoolAfter(cmd, pool, id, service, config, birth, env))
  {
    hide Perform, Sound, State, SingleAct, LateFor;
    var k := Key(id);
    var b := if k in pool then pool[k].bundle else map[];
    PerformIsSound(SingleAct(cmd, k in pool, State(b), service.autostart), b, config, service, birth, LateFor(env, k));
  }

  lemma PerformIsSound(act: Act, b: Bundle, config: Config, service: Service, birth: nat, late: string -> Choice)
    requires forall q :: q in b ==> Sound(b[q])
    ensures var r := Perform(act, b, config, service, birth, late); forall pier :: pier in r ==> Sound(r[pier])
  {
    hide Sound;
    if !act.Leave? { PerformConfigures(act, b, config, service, birth, late); }
  }
}
