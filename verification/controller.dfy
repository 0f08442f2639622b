/**
 The controller of src/backend/server.cpp: one service, with a connector for every remote pier it names.
 */
module Controllers {
  import opened Settings
  import opened Connectors
  import opened Order

  /** m_bundle: the connectors by remote pier. */
  type Bundle = map<string, Conn>

  datatype Status = Asleep | Broken | Lonely | Burden

  /** A carrier as a report shows it. */
  datatype Tunnel = Tunnel(pier: string, pid: nat)

  // ---------------------------------------------------------------------------------------------------------
  // The list of piers
  // ---------------------------------------------------------------------------------------------------------

  /** boost::split at every single space: empty words are kept and there is always at least one word. */
  function Split(s: string): (words: seq<string>)
    ensures words != []
  {
    if s == "" then [""] else
      var rest := Split(s[1..]);
      if s[0] == ' ' then [""] + rest else [[s[0]] + rest[0]] + rest[1..]
  }

  function Join(words: seq<string>): string {
    if words == [] then "" else if |words| == 1 then words[0] else words[0] + " " + Join(words[1..])
  }

  predicate AreWords(words: seq<string>) {
    words != [] && forall i :: 0 <= i < |words| ==> ' ' !in words[i]
  }

  /** Splitting yields words that join to the text ... */
  lemma {:induction false} SplitJoins(s: string)
    ensures AreWords(Split(s)) && Join(Split(s)) == s
  {
    if s != "" {
      SplitJoins(s[1..]);
      var rest := Split(s[1..]);
      var words := Split(s);
      if s[0] == ' ' {
        assert words[1..] == rest;
        assert Join(words) == "" + " " + s[1..];
      } else {
        assert words[0] == [s[0]] + rest[0] && words[1..] == rest[1..];
        assert Join(words) == [s[0]] + Join(rest);
      }
      assert s == [s[0]] + s[1..];
    }
  }

  /** ... and is the only way to do so. */
  lemma {:induction false} JoinSplits(words: seq<string>)
    requires AreWords(words)
    ensures Split(Join(words)) == words
    decreases |words|, |words[0]|
  {
    var s := Join(words);
    if words[0] == "" {
      if |words| > 1 {
        JoinSplits(words[1..]);
        assert s[0] == ' ' && s[1..] == Join(words[1..]);
        assert words == [""] + words[1..];
      } else {
        assert words == [""];
      }
    } else {
      var less := [words[0][1..]] + words[1..];
      assert less[1..] == words[1..];
      assert forall i :: 1 <= i < |less| ==> less[i] == words[i];
      JoinSplits(less);
      assert words[0] == [words[0][0]] + words[0][1..];
      assert words[0][0] != ' ';
      assert s[0] == words[0][0] && s[1..] == Join(less);
      assert words == [[words[0][0]] + less[0]] + less[1..];
    }
  }

  function Piers(s: string): (piers: set<string>)
    ensures piers != {}
  {
    var words := Split(s);
    var piers := set p | p in words;
    assert words[0] in piers;
    piers
  }

  // ---------------------------------------------------------------------------------------------------------
  // The operations
  // ---------------------------------------------------------------------------------------------------------

  /** restart(): drop the connectors of piers no longer named, restart the others, make the missing ones. */
  function RestartedBundle(b: Bundle, config: Config, service: Service, birth: nat, late: string -> Choice): (r: Bundle)
    ensures r.Keys == Piers(service.pier)
  {
    map pier | pier in Piers(service.pier) ::
      Restarted(if pier in b then b[pier] else Fresh(birth), config, service.(pier := pier), late(pier))
  }

  function Kept(b: Bundle, piers: set<string>): Bundle {
    map pier | pier in b && pier in piers :: b[pier]
  }

  predicate IsBroken(c: Conn) { c.error != "" }

  predicate HasTunnel(c: Conn) { c.tunnels != {} }

  function StateOver(keys: seq<string>, b: Bundle): Status
    requires forall k :: k in keys ==> k in b
  {
    if keys == [] then Lonely
    else if IsBroken(b[keys[0]]) then Broken
    else if HasTunnel(b[keys[0]]) then Burden
    else StateOver(keys[1..], b)
  }

  function State(b: Bundle): Status {
    if b == map[] then Asleep else StateOver(SortedKeys(b.Keys), b)
  }

  function MessageOver(keys: seq<string>, b: Bundle): string
    requires forall k :: k in keys ==> k in b
  {
    if keys == [] then "" else if IsBroken(b[keys[0]]) then b[keys[0]].error else MessageOver(keys[1..], b)
  }

  function Message(b: Bundle): string {
    MessageOver(SortedKeys(b.Keys), b)
  }

  predicate IsLeast(n: nat, s: set<nat>) {
    n in s && forall m :: m in s ==> n <= m
  }

  lemma {:induction false} LeastExists(s: set<nat>)
    requires s != {}
    ensures exists n :: IsLeast(n, s)
    decreases |s|
  {
    var x :| x in s;
    if s == {x} {
      assert IsLeast(x, s);
    } else {
      LeastExists(s - {x});
      var y :| IsLeast(y, s - {x});
      var z := if x < y then x else y;
      forall m | m in s ensures z <= m { assert m == x || m in s - {x}; }
      assert IsLeast(z, s);
    }
  }

  /** The pids of one connector (in the source ordered by the address of their token). */
  function PidList(s: set<nat>): (r: seq<nat>)
    ensures forall n :: n in r <==> n in s
    ensures |r| == |s|
    decreases |s|
  {
    if s == {} then [] else
      LeastExists(s);
      var n :| n in s && IsLeast(n, s);
      [n] + PidList(s - {n})
  }

  function TunnelList(pier: string, pids: seq<nat>): (r: seq<Tunnel>)
    ensures |r| == |pids| && forall i :: 0 <= i < |r| ==> r[i] == Tunnel(pier, pids[i])
  {
    if pids == [] then [] else [Tunnel(pier, pids[0])] + TunnelList(pier, pids[1..])
  }

  function TunnelsOver(keys: seq<string>, b: Bundle): seq<Tunnel>
    requires forall k :: k in keys ==> k in b
  {
    if keys == [] then [] else TunnelList(keys[0], PidList(b[keys[0]].tunnels)) + TunnelsOver(keys[1..], b)
  }

  /** tunnels(): the carriers of all connectors. */
  function Tunnels(b: Bundle): seq<Tunnel> {
    TunnelsOver(SortedKeys(b.Keys), b)
  }

  // ---------------------------------------------------------------------------------------------------------
  // Coherence of the reports
  // ---------------------------------------------------------------------------------------------------------

  /** The connector that decides the state: the first, in the order of piers, that is broken or has a tunnel. */
  predicate Decides(b: Bundle, k: string) {
    && k in b && (IsBroken(b[k]) || HasTunnel(b[k]))
    && forall l :: l in b && Less(l, k) ==> !IsBroken(b[l]) && !HasTunnel(b[l])
  }

  lemma {:induction false} StateOverDecides(keys: seq<string>, b: Bundle)
    requires forall k :: k in keys ==> k in b
    ensures var i := Decider(keys, b);
      && (i == |keys| ==> StateOver(keys, b) == Lonely && MessageOver(keys, b) == "" && TunnelsOver(keys, b) == [])
      && (i < |keys| && IsBroken(b[keys[i]]) ==>
           StateOver(keys, b) == Broken && MessageOver(keys, b) == b[keys[i]].error)
      && (i < |keys| && !IsBroken(b[keys[i]]) ==> StateOver(keys, b) == Burden)
  {
    if keys != [] && !IsBroken(b[keys[0]]) && !HasTunnel(b[keys[0]]) {
      StateOverDecides(keys[1..], b);
    }
  }

  function Decider(keys: seq<string>, b: Bundle): (i: nat)
    requires forall k :: k in keys ==> k in b
    ensures i <= |keys|
    ensures i < |keys| ==> IsBroken(b[keys[i]]) || HasTunnel(b[keys[i]])
    ensures forall j :: 0 <= j < i ==> !IsBroken(b[keys[j]]) && !HasTunnel(b[keys[j]])
  {
    if keys == [] || IsBroken(b[keys[0]]) || HasTunnel(b[keys[0]]) then 0 else 1 + Decider(keys[1..], b)
  }

  lemma {:induction false} TunnelsListed(keys: seq<string>, b: Bundle, t: Tunnel)
    requires forall k :: k in keys ==> k in b
    ensures t in TunnelsOver(keys, b) <==> t.pier in keys && t.pid in b[t.pier].tunnels
  {
    if keys != [] {
      TunnelsListed(keys[1..], b, t);
      var here := TunnelList(keys[0], PidList(b[keys[0]].tunnels));
      if t.pier == keys[0] && t.pid in b[keys[0]].tunnels {
        var i :| 0 <= i < |PidList(b[keys[0]].tunnels)| && PidList(b[keys[0]].tunnels)[i] == t.pid;
        assert here[i] == t;
      }
      assert t in TunnelsOver(keys, b) <==> t in here || t in TunnelsOver(keys[1..], b);
    }
  }

  /** A report lists exactly the carriers that are alive. */
  lemma TunnelsComplete(b: Bundle, t: Tunnel)
    ensures t in Tunnels(b) <==> t.pier in b && t.pid in b[t.pier].tunnels
  {
    TunnelsListed(SortedKeys(b.Keys), b, t);
  }

  lemma DeciderDecides(b: Bundle, k: string)
    ensures var keys := SortedKeys(b.Keys); var i := Decider(keys, b);
      Decides(b, k) <==> i < |keys| && keys[i] == k
  {
    var keys := SortedKeys(b.Keys);
    var i := Decider(keys, b);
    if k in keys {
      var j :| 0 <= j < |keys| && keys[j] == k;
      if Decides(b, keys[j]) { OnlyFirstDecides(b, j); }
    }
    if i < |keys| { FirstDecides(b, i); }
  }

  lemma OnlyFirstDecides(b: Bundle, j: nat)
    requires j < |SortedKeys(b.Keys)| && Decides(b, SortedKeys(b.Keys)[j])
    ensures j == Decider(SortedKeys(b.Keys), b)
  {
    var keys := SortedKeys(b.Keys);
    var i := Decider(keys, b);
    if i < j {
      KeyOrder(b.Keys, i, j);
    }
  }

  lemma FirstDecides(b: Bundle, i: nat)
    requires i < |SortedKeys(b.Keys)| && i == Decider(SortedKeys(b.Keys), b)
    ensures Decides(b, SortedKeys(b.Keys)[i])
  {
    var keys := SortedKeys(b.Keys);
    forall l | l in b && Less(l, keys[i]) ensures !IsBroken(b[l]) && !HasTunnel(b[l]) {
      var m :| 0 <= m < |keys| && keys[m] == l;
      KeyOrder(b.Keys, m, i);
    }
  }

  /** The state is the verdict of the deciding connector, and the message agrees with it. */
  lemma ReportsCoherent(b: Bundle)
    ensures State(b) == Asleep <==> b == map[]
    ensures State(b) == Broken <==> exists k :: Decides(b, k) && IsBroken(b[k])
    ensures State(b) == Burden <==> exists k :: Decides(b, k) && !IsBroken(b[k])
    ensures forall k :: Decides(b, k) && IsBroken(b[k]) ==> Message(b) == b[k].error != ""
    ensures State(b) == Burden ==> Tunnels(b) != []
    ensures State(b) == Lonely || State(b) == Asleep ==> Message(b) == "" && Tunnels(b) == []
  {
    var keys := SortedKeys(b.Keys);
    StateOverDecides(keys, b);
    var i := Decider(keys, b);
    forall k ensures Decides(b, k) <==> i < |keys| && keys[i] == k { DeciderDecides(b, k); }
    if i < |keys| {
      assert Decides(b, keys[i]);
      if HasTunnel(b[keys[i]]) {
        var pid :| pid in b[keys[i]].tunnels;
        TunnelsComplete(b, Tunnel(keys[i], pid));
      }
    }
  }

  /** The first connector, in the order of piers, that is broken. */
  predicate FirstBroken(b: Bundle, k: string) {
    k in b && IsBroken(b[k]) && forall l :: l in b && Less(l, k) ==> !IsBroken(b[l])
  }

  lemma {:induction false} MessageOverFirst(keys: seq<string>, b: Bundle, i: nat)
    requires (forall k :: k in keys ==> k in b) && i < |keys|
    requires IsBroken(b[keys[i]]) && forall j :: 0 <= j < i ==> !IsBroken(b[keys[j]])
    ensures MessageOver(keys, b) == b[keys[i]].error
  {
    if i > 0 { MessageOverFirst(keys[1..], b, i - 1); }
  }

  lemma {:induction false} MessageOverNone(keys: seq<string>, b: Bundle)
    requires forall k :: k in keys ==> k in b && !IsBroken(b[k])
    ensures MessageOver(keys, b) == ""
  {
    if keys != [] { MessageOverNone(keys[1..], b); }
  }

  /** The message is the error of the first broken connector, also while another one has a tunnel, and else empty. */
  lemma MessageTells(b: Bundle)
    ensures forall k :: FirstBroken(b, k) ==> Message(b) == b[k].error
    ensures (forall k :: k in b ==> !IsBroken(b[k])) ==> Message(b) == ""
  {
    var keys := SortedKeys(b.Keys);
    forall k | FirstBroken(b, k) ensures Message(b) == b[k].error {
      var i :| 0 <= i < |keys| && keys[i] == k;
      forall j | 0 <= j < i ensures !IsBroken(b[keys[j]]) { KeyOrder(b.Keys, j, i); }
      MessageOverFirst(keys, b, i);
    }
    if forall k :: k in b ==> !IsBroken(b[k]) { MessageOverNone(keys, b); }
  }

  // ---------------------------------------------------------------------------------------------------------
  // The list of tunnels
  // ---------------------------------------------------------------------------------------------------------

  lemma PidsFirst(s: set<nat>)
    requires s != {}
    ensures var n := PidList(s)[0]; PidList(s) == [n] + PidList(s - {n}) && IsLeast(n, s)
  {
  }

  lemma {:induction false} PidsOnce(s: set<nat>, i: nat, j: nat)
    requires i < j < |PidList(s)|
    ensures PidList(s)[i] < PidList(s)[j]
    decreases |s|
  {
    hide PidList;
    PidsFirst(s);
    var n := PidList(s)[0];
    var rest := PidList(s - {n});
    assert PidList(s)[j] == rest[j - 1];
    if i > 0 {
      assert PidList(s)[i] == rest[i - 1];
      PidsOnce(s - {n}, i - 1, j - 1);
    } else {
      assert rest[j - 1] in rest;
    }
  }

  lemma {:induction false} TunnelsOverOnce(keys: seq<string>, b: Bundle, i: nat, j: nat)
    requires forall k :: k in keys ==> k in b
    requires forall m, n :: 0 <= m < n < |keys| ==> Less(keys[m], keys[n])
    requires i < j < |TunnelsOver(keys, b)|
    ensures var s, t := TunnelsOver(keys, b)[i], TunnelsOver(keys, b)[j];
      Less(s.pier, t.pier) || (s.pier == t.pier && s.pid < t.pid)
  {
    hide PidList, TunnelList;
    var here := TunnelList(keys[0], PidList(b[keys[0]].tunnels));
    var rest := TunnelsOver(keys[1..], b);
    if j < |here| {
      PidsOnce(b[keys[0]].tunnels, i, j);
    } else if i >= |here| {
      TunnelsOverOnce(keys[1..], b, i - |here|, j - |here|);
    } else {
      var t := rest[j - |here|];
      TunnelsListed(keys[1..], b, t);
      var n :| 0 <= n < |keys[1..]| && keys[1..][n] == t.pier;
      assert keys[n + 1] == t.pier;
    }
  }

  /** Each carrier is listed once, by piers in the order of the map. */
  lemma TunnelsOnce(b: Bundle, i: nat, j: nat)
    requires i < j < |Tunnels(b)|
    ensures var s, t := Tunnels(b)[i], Tunnels(b)[j]; Less(s.pier, t.pier) || (s.pier == t.pier && s.pid < t.pid)
  {
    var keys := SortedKeys(b.Keys);
    forall m, n | 0 <= m < n < |keys| ensures Less(keys[m], keys[n]) { KeysAreSorted(b.Keys, m, n); }
    TunnelsOverOnce(keys, b, i, j);
  }

  /** Whatever the list of piers says, a restarted service is not asleep; it keeps the carriers of kept piers. */
  lemma RestartKeepsTunnels(b: Bundle, config: Config, service: Service, birth: nat, late: string -> Choice)
    requires forall pier :: pier in b ==> Sound(b[pier])
    ensures var r := RestartedBundle(b, config, service, birth, late);
      && State(r) != Asleep
      && forall t: Tunnel :: t in Tunnels(r) <==> t in Tunnels(b) && t.pier in Piers(service.pier)
  {
    var r := RestartedBundle(b, config, service, birth, late);
    assert r.Keys != {};
    ReportsCoherent(r);
    forall t: Tunnel ensures t in Tunnels(r) <==> t in Tunnels(b) && t.pier in Piers(service.pier) {
      TunnelsComplete(r, t);
      TunnelsComplete(b, t);
      if t.pier in r {
        RestartEffect(if t.pier in b then b[t.pier] else Fresh(birth), config, service.(pier := t.pier), late(t.pier));
      }
    }
  }

  /**
   `d` is the connector that `before` has for the pier, or one made by request `birth`, restarted with this
   configuration and this service: it keeps its carriers, and negotiates unless it is an import that has some.
   */
  predicate RestartedWith(d: Conn, before: Bundle, pier: string, config: Config, service: Service, birth: nat) {
    var c := if pier in before then before[pier] else Fresh(birth);
    && d.config == config && d.service == service.(pier := pier)
    && d.birth == c.birth && d.tunnels == c.tunnels && d.restarts == c.restarts + 1
    && (service.local || c.tunnels == {} ==> d.phase.Running? && d.error == "")
    && (!service.local && c.tunnels != {} ==> d.phase.Idle? && d.error == c.error)
  }

  /** A restarted service has a connector for each of its piers and no other, each with the new configuration. */
  lemma RestartEquips(b: Bundle, config: Config, service: Service, birth: nat, late: string -> Choice)
    requires forall pier :: pier in b ==> Sound(b[pier])
    ensures var r := RestartedBundle(b, config, service, birth, late);
      && r.Keys == Piers(service.pier)
      && forall pier :: pier in r ==> RestartedWith(r[pier], b, pier, config, service, birth)
  {
    hide Restarted, Sound, Piers;
    var r := RestartedBundle(b, config, service, birth, late);
    forall pier | pier in r ensures RestartedWith(r[pier], b, pier, config, service, birth) {
      var c := if pier in b then b[pier] else Fresh(birth);
      assert Sound(c) by { FreshIsSound(birth); }
      RestartEffect(c, config, service.(pier := pier), late(pier));
    }
  }

  lemma FreshIsSound(birth: nat)
    ensures Sound(Fresh(birth))
  {
  }

  // ---------------------------------------------------------------------------------------------------------
  // The class
  // ---------------------------------------------------------------------------------------------------------

  /** The bundle in the middle of the second loop of restart(): `visit` still has to be restarted. */
  function Midway(before: Bundle, after: Bundle, visit: set<string>): Bundle {
    map pier | pier in before.Keys + after.Keys && (if pier in visit then pier in before else pier in after) ::
      if pier in visit then before[pier] else after[pier]
  }

  lemma MidwayTurn(before: Bundle, after: Bundle, visit: set<string>, pier: string)
    requires pier in visit && visit <= after.Keys
    ensures Midway(before, after, visit)[pier := after[pier]] == Midway(before, after, visit - {pier})
    ensures pier in Midway(before, after, visit) <==> pier in before
  {
    var l, r := Midway(before, after, visit)[pier := after[pier]], Midway(before, after, visit - {pier});
    assert l.Keys == r.Keys;
  }

  lemma TunnelsTurn(r: seq<Tunnel>, keys: seq<string>, b: Bundle)
    requires keys != [] && forall k :: k in keys ==> k in b
    ensures r + TunnelsOver(keys, b) == r + TunnelList(keys[0], PidList(b[keys[0]].tunnels)) + TunnelsOver(keys[1..], b)
  {
  }

  class Controller {
    var bundle: map<string, Connector>
    ghost var repr: set<Connector>

    /** Every pier has a connector of its own. */
    ghost predicate Valid()
      reads this
    {
      && (forall p :: p in bundle ==> bundle[p] in repr)
      && (forall p, q :: p in bundle && q in bundle && p != q ==> bundle[p] != bundle[q])
    }

    ghost function View(): Bundle
      requires Valid()
      reads this, repr
    {
      map p | p in bundle :: bundle[p].View()
    }

    constructor ()
      ensures Valid() && bundle == map[] && repr == {}
    {
      bundle, repr := map[], {};
    }

    /** The first loop of restart(): drop the connectors of piers that are not named any more. */
    method Drop(piers: set<string>)
      requires Valid()
      modifies this
      ensures Valid() && repr == old(repr)
      ensures View() == Kept(old(View()), piers)
    {
      var visit := bundle.Keys;
      while visit != {}
        invariant visit <= bundle.Keys <= old(bundle.Keys) && repr == old(repr)
        invariant forall p :: p in bundle ==> bundle[p] == old(bundle[p])
        invariant forall p :: p in old(bundle) ==> (p in bundle <==> p in visit || p in piers)
        decreases visit
      {
        var pier :| pier in visit;
        visit := visit - {pier};
        if pier !in piers {
          bundle := bundle - {pier};
        }
      }
    }

    /** One turn of the second loop: find or make the connector of a pier and restart it. */
    method RestartOne(config: Config, single: Service, birth: nat, late: Choice, ghost next: Conn)
      requires Valid()
      requires var c := if single.pier in bundle then bundle[single.pier].View() else Fresh(birth);
        next == Restarted(c, config, single, late)
      modifies this, repr
      ensures Valid() && forall c :: c in repr ==> c in old(repr) || fresh(c)
      ensures View() == old(View())[single.pier := next]
    {
      var pier := single.pier;
      if pier !in bundle {
        var c := new Connector(birth);
        bundle, repr := bundle[pier := c], repr + {c};
      }
      bundle[pier].Restart(config, single, late);
    }

    method Restart(config: Config, service: Service, birth: nat, late: string -> Choice)
      requires Valid()
      modifies this, repr
      ensures Valid() && forall c :: c in repr ==> c in old(repr) || fresh(c)
      ensures View() == RestartedBundle(old(View()), config, service, birth, late)
    {
      ghost var before := View();
      ghost var after := RestartedBundle(before, config, service, birth, late);
      var piers := Piers(service.pier);
      Drop(piers);
      RestartAll(config, service, birth, late, piers, before, after);
    }

    method RestartAll(config: Config, service: Service, birth: nat, late: string -> Choice, piers: set<string>,
                      ghost before: Bundle, ghost after: Bundle)
      requires Valid() && View() == Kept(before, piers) && after.Keys == piers
      requires forall p :: p in after ==>
        after[p] == Restarted(if p in before then before[p] else Fresh(birth), config, service.(pier := p), late(p))
      modifies this, repr
      ensures Valid() && forall c :: c in repr ==> c in old(repr) || fresh(c)
      ensures View() == after
    {
      hide Restarted;
      var visit := piers;
      assert View() == Midway(before, after, visit);
      while visit != {}
        invariant Valid() && visit <= piers
        invariant forall c :: c in repr ==> c in old(repr) || fresh(c)
        invariant View() == Midway(before, after, visit)
        decreases visit
      {
        var pier :| pier in visit;
        MidwayTurn(before, after, visit, pier);
        assert pier in bundle ==> bundle[pier].View() == Midway(before, after, visit)[pier];
        RestartOne(config, service.(pier := pier), birth, late(pier), after[pier]);
        visit := visit - {pier};
      }
    }

    method Suspend()
      modifies this
      ensures Valid() && bundle == map[] && repr == old(repr)
    {
      bundle := map[];
    }

    method CurrentState() returns (r: Status)
      requires Valid()
      ensures r == State(View())
    {
      ghost var view := View();
      assert view.Keys == bundle.Keys;
      var keys := SortedKeys(bundle.Keys);
      r := if bundle == map[] then Asleep else Lonely;
      while keys != []
        invariant forall k :: k in keys ==> k in bundle
        invariant r == if bundle == map[] then Asleep else Lonely
        invariant bundle == map[] ==> keys == []
        invariant StateOver(keys, view) == StateOver(SortedKeys(view.Keys), view)
      {
        var c := bundle[keys[0]];
        assert view[keys[0]] == c.View();
        if c.error != "" {
          return Broken;
        } else if c.tunnels != {} {
          return Burden;
        }
        keys := keys[1..];
      }
    }

    method CurrentMessage() returns (r: string)
      requires Valid()
      ensures r == Message(View())
    {
      ghost var view := View();
      assert view.Keys == bundle.Keys;
      var keys := SortedKeys(bundle.Keys);
      while keys != []
        invariant forall k :: k in keys ==> k in bundle
        invariant MessageOver(keys, view) == Message(view)
      {
        var c := bundle[keys[0]];
        assert view[keys[0]] == c.View();
        if c.error != "" {
          return c.error;
        }
        keys := keys[1..];
      }
      return "";
    }

    method CurrentTunnels() returns (r: seq<Tunnel>)
      requires Valid()
      ensures r == Tunnels(View())
    {
      hide PidList, TunnelList;
      ghost var view := View();
      assert view.Keys == bundle.Keys;
      var keys := SortedKeys(bundle.Keys);
      r := [];
      while keys != []
        invariant forall k :: k in keys ==> k in bundle
        invariant view.Keys == bundle.Keys && r + TunnelsOver(keys, view) == Tunnels(view)
      {
        var c := bundle[keys[0]];
        assert view[keys[0]] == c.View();
        TunnelsTurn(r, keys, view);
        r := r + TunnelList(keys[0], PidList(c.tunnels));
        keys := keys[1..];
      }
    }
  }
}
