/**
 What each of the client's ten calls (src/backend/client.cpp) does to the supervisor and what it returns, after the
 request and the answer have been encoded, sent and decoded.
 */
module Calls {
  import opened Text
  import opened Order
  import opened Connectors
  import opened Controllers
  import opened Handles
  import opened EngineFiles
  import opened Engines
  import opened Backends
  import opened Messages
  import opened Rpc
  import Files

  /** The supervisor after a call, and how the call ends for the client. */
  function After(c: Call, b: Backend, d: Files.Disk, env: Env, what: string -> string): Backend {
    Complied(b, Pushed(RequestMessage(c)), d, env, what).0
  }

  function EndingOf(c: Call, b: Backend, d: Files.Disk, env: Env, what: string -> string): Ending {
    Performed(c, Complied(b, Pushed(RequestMessage(c)), d, env, what).1)
  }

  /** Exceptions of the library have a text. */
  ghost predicate Speaks(what: string -> string) {
    forall e :: what(e) != ""
  }

  // ---------------------------------------------------------------------------------------------------------
  // unplug, engage and adjust
  // ---------------------------------------------------------------------------------------------------------

  /** The request that reaches the engine. */
  lemma AllReaches(c: Call, b: Backend, d: Files.Disk, env: Env, what: string -> string)
    requires c.action in {UNPLUG, ENGAGE, ADJUST} && c.target.None? && Speaks(what)
    ensures var cmd := if c.action == UNPLUG then Unplug else if c.action == ENGAGE then Engage else Adjust;
      After(c, b, d, env, what) == Served(b, All(cmd), d, env)
    ensures EndingOf(c, b, d, env, what) ==
      if LoadAll(d).Ok? then Returned(Error("")) else TaskError(what(LoadAll(d).error))
  {
    hide Pushed, Complied, Performed, Served, LoadAll;
    CallGetsThrough(c, b, d, env, what);
  }

  lemma OneReaches(c: Call, b: Backend, d: Files.Disk, env: Env, what: string -> string)
    requires c.action in {UNPLUG, ENGAGE, ADJUST} && c.target.Some? && Speaks(what)
    ensures var cmd := if c.action == UNPLUG then Unplug else if c.action == ENGAGE then Engage else Adjust;
      After(c, b, d, env, what) == Served(b, Only(cmd, c.target.value), d, env)
    ensures var one := LoadOne(d, c.target.value);
      EndingOf(c, b, d, env, what) ==
        if one.Err? then TaskError(what(one.error))
        else if c.action == ENGAGE && one.value.1.name == "" then TaskError(what("wrong service"))
        else Returned(Error(""))
  {
    hide Pushed, Complied, Performed, Served, LoadOne;
    CallGetsThrough(c, b, d, env, what);
  }

  /** Whether a bulk call leaves a service running; `wasAwake` says if it was known and awake, None if it is new. */
  predicate Runs(action: Code, wasAwake: Option<bool>, autostart: bool) {
    || (action == ENGAGE && autostart)
    || (action == ADJUST && if wasAwake.Some? then wasAwake.value else autostart)
  }

  function WasAwake(pool: Pool, h: Handle): Option<bool> {
    if Pooled(pool, h) then Some(Awake(pool, h)) else None
  }

  /**
   A bulk call from any reachable state: afterwards the pool holds exactly the configured services. unplug() leaves all
   of them asleep, engage() exactly those awake that start by themselves, adjust() known ones as they were and new ones
   awake if they start by themselves. One that is awake has a connector for each of its piers, with the configuration
   and the entry on disk, and the carriers that it had for these piers; one that is asleep has none.
   */
  lemma BulkCallMeans(evs: seq<Event>, action: Code, d: Files.Disk, env: Env, what: string -> string, h: Handle)
    requires action in {UNPLUG, ENGAGE, ADJUST} && Speaks(what)
    requires WrittenHome(d) && UnambiguousOn(d) && Matches(Backends.Run(START, evs).pool, d)
    ensures var b := Backends.Run(START, evs);
      var now := After(Call(action, None), b, d, env, what).pool;
      && EndingOf(Call(action, None), b, d, env, what) == Returned(Error(""))
      && (Pooled(now, h) <==> ConfiguredOn(d, h))
      && (ConfiguredOn(d, h) ==>
           var runs := Runs(action, WasAwake(b.pool, h), ServiceOn(d, h).autostart);
           var config := LoadConfig(d).value;
           && (Awake(now, h) <==> runs)
           && Equipped(now[Key(h)].bundle, runs, BundleAt(b.pool, Key(h)), config, ServiceOn(d, h), b.served))
  {
    hide After, EndingOf, Served, LoadAll, LoadOne, LoadConfig, WrittenHome, ConfiguredOn, UnambiguousOn, Matches;
    hide Backends.Run, Awake, Pooled, Equipped, BundleAt, ServiceOn, Backends.Follows;
    var b := Backends.Run(START, evs);
    var cmd := if action == UNPLUG then Unplug else if action == ENGAGE then Engage else Adjust;
    AllReaches(Call(action, None), b, d, env, what);
    ListingIsClean(d);
    BulkFollows(b, cmd, d, env);
    FollowsAt(Served(b, All(cmd), d, env).pool, d, h);
    if ConfiguredOn(d, h) {
      ServedEquips(evs, cmd, d, env, h);
      ServedAwake(evs, cmd, d, env, h);
    }
  }

  lemma FollowsAt(pool: Pool, d: Files.Disk, h: Handle)
    requires WrittenHome(d) && Backends.Follows(pool, d)
    ensures Pooled(pool, h) <==> ConfiguredOn(d, h)
  {
    hide ConfiguredOn, WrittenHome, Pooled;
  }

  /** ... and the carriers afterwards are exactly the earlier ones of services that run on, for piers still listed. */
  lemma BulkCallCarriers(evs: seq<Event>, action: Code, d: Files.Disk, env: Env, what: string -> string, h: Handle,
                         pier: string, pid: nat)
    requires action in {UNPLUG, ENGAGE, ADJUST} && Speaks(what)
    requires WrittenHome(d) && UnambiguousOn(d) && Matches(Backends.Run(START, evs).pool, d)
    ensures var b := Backends.Run(START, evs);
      Carrier(After(Call(action, None), b, d, env, what).pool, h, pier, pid) <==>
        && Carrier(b.pool, h, pier, pid) && ConfiguredOn(d, h) && pier in Piers(ServiceOn(d, h).pier)
        && (action == ADJUST || (action == ENGAGE && ServiceOn(d, h).autostart))
  {
    hide After, EndingOf, Served, LoadAll, LoadOne, WrittenHome, ConfiguredOn, UnambiguousOn, Matches;
    hide Backends.Run, Carrier, ServiceOn, Piers;
    var cmd := if action == UNPLUG then Unplug else if action == ENGAGE then Engage else Adjust;
    AllReaches(Call(action, None), Backends.Run(START, evs), d, env, what);
    ServedConservesCarriers(evs, cmd, d, env, h, pier, pid);
  }

  /**
   A call for one service from any reachable state: other services are left alone. One that is not configured is
   dropped, and to engage it is an error; else unplug() leaves it asleep, if it is known, engage() awake, and adjust()
   as it was or, if it is new, as its autostart flag says. Its connectors are as after a bulk call.
   */
  lemma SingleCallMeans(evs: seq<Event>, action: Code, id: Handle, d: Files.Disk, env: Env, what: string -> string)
    requires action in {UNPLUG, ENGAGE, ADJUST} && Speaks(what)
    requires WrittenHome(d) && NamedOn(d)
    requires var pool := Backends.Run(START, evs).pool; Key(id) in pool ==> pool[Key(id)].handle == id
    ensures var b := Backends.Run(START, evs);
      var now := After(Call(action, Some(id)), b, d, env, what).pool;
      && (EndingOf(Call(action, Some(id)), b, d, env, what) ==
           if action == ENGAGE && !ConfiguredOn(d, id) then TaskError(what("wrong service")) else Returned(Error("")))
      && (forall k :: k != Key(id) ==> (k in now <==> k in b.pool) && (k in now ==> now[k] == b.pool[k]))
      && (Pooled(now, id) <==> ConfiguredOn(d, id) && (action != UNPLUG || Pooled(b.pool, id)))
      && (Pooled(now, id) ==>
           var runs := action == ENGAGE || Runs(action, WasAwake(b.pool, id), ServiceOn(d, id).autostart);
           var config := LoadConfig(d).value;
           && (Awake(now, id) <==> runs)
           && Equipped(now[Key(id)].bundle, runs, BundleAt(b.pool, Key(id)), config, ServiceOn(d, id), b.served))
  {
    hide After, EndingOf, LoadAll, LoadOne, LoadConfig, WrittenHome, ConfiguredOn, NamedOn, Backends.Run;
    hide Awake, Pooled, Equipped, BundleAt, ServiceOn, PoolAfter, Carrier, Piers, Served;
    var b := Backends.Run(START, evs);
    var cmd := if action == UNPLUG then Unplug else if action == ENGAGE then Engage else Adjust;
    OneReaches(Call(action, Some(id)), b, d, env, what);
    LoadOneIs(d, id);
    ServedOwn(evs, cmd, d, env, id, "", 0);
    if ConfiguredOn(d, id) {
      ServedOwnEquips(evs, cmd, d, env, id);
    } else {
      DroppedOnly(b, cmd, d, env, id);
    }
  }

  lemma DroppedOnly(b: Backend, cmd: Command, d: Files.Disk, env: Env, id: Handle)
    requires WrittenHome(d) && NamedOn(d) && !ConfiguredOn(d, id)
    ensures var now := Served(b, Only(cmd, id), d, env).pool;
      && !Pooled(now, id)
      && (forall k :: k != Key(id) ==> (k in now <==> k in b.pool) && (k in now ==> now[k] == b.pool[k]))
  {
    hide LoadOne, WrittenHome, ConfiguredOn, NamedOn, PoolAfter;
    LoadOneIs(d, id);
    var one := LoadOne(d, id).value;
    SingleIsLocal(cmd, b.pool, id, one.1, one.0, b.served, env);
  }

  /** The carriers of the service afterwards. */
  lemma SingleCallCarriers(evs: seq<Event>, action: Code, id: Handle, d: Files.Disk, env: Env, what: string -> string,
                           pier: string, pid: nat)
    requires action in {UNPLUG, ENGAGE, ADJUST} && Speaks(what)
    requires WrittenHome(d) && NamedOn(d) && ConfiguredOn(d, id)
    requires var pool := Backends.Run(START, evs).pool; Key(id) in pool ==> pool[Key(id)].handle == id
    ensures var b := Backends.Run(START, evs);
      Carrier(After(Call(action, Some(id)), b, d, env, what).pool, id, pier, pid) <==>
        Carrier(b.pool, id, pier, pid) && action != UNPLUG && pier in Piers(ServiceOn(d, id).pier)
  {
    hide After, EndingOf, LoadAll, LoadOne, WrittenHome, ConfiguredOn, NamedOn, Backends.Run;
    hide Awake, Pooled, ServiceOn, PoolAfter, Carrier, Piers, Served;
    var cmd := if action == UNPLUG then Unplug else if action == ENGAGE then Engage else Adjust;
    OneReaches(Call(action, Some(id)), Backends.Run(START, evs), d, env, what);
    ServedOwn(evs, cmd, d, env, id, pier, pid);
  }

  // ---------------------------------------------------------------------------------------------------------
  // status and review
  // ---------------------------------------------------------------------------------------------------------

  /** State and message tell what the connectors of a service are up to. */
  ghost predicate Tells(state: Code, message: string, b: Bundle) {
    && state in {ASLEEP, BROKEN, LONELY, BURDEN}
    && (state == ASLEEP <==> b == map[])
    && (state == BROKEN <==> exists k :: Decides(b, k) && IsBroken(b[k]))
    && (state == BURDEN <==> exists k :: Decides(b, k) && !IsBroken(b[k]))
    && (forall k :: FirstBroken(b, k) ==> message == b[k].error)
    && ((forall k :: k in b ==> !IsBroken(b[k])) ==> message == "")
  }

  lemma StateTells(b: Bundle)
    ensures Tells(CodeOf(State(b)), Controllers.Message(b), b)
  {
    hide State, Controllers.Message, Tunnels;
    ReportsCoherent(b);
    MessageTells(b);
  }

  /** status() and review() change nothing. */
  lemma QueriesChangeNothing(c: Call, b: Backend, d: Files.Disk, env: Env, what: string -> string)
    requires c.action in {STATUS, REVIEW} && Speaks(what)
    ensures After(c, b, d, env, what) == b
  {
    hide Pushed, Complied, Performed, HealthsOf, ReportsOf, HealthOf, ReportOf;
    CallGetsThrough(c, b, d, env, what);
  }

  /** The list tells of each pooled service exactly once. */
  ghost predicate TellsAll(list: seq<Health>, pool: Pool) {
    && |list| == |pool|
    && (forall i, j :: 0 <= i < j < |list| ==> list[i].pier != list[j].pier || list[i].service != list[j].service)
    && (forall i :: 0 <= i < |list| ==> TellsHealth(list[i], pool))
  }

  ghost predicate TellsHealth(r: Health, pool: Pool) {
    var h := Handle(r.pier, r.service);
    Pooled(pool, h) && Tells(r.state, r.message, pool[Key(h)].bundle)
  }

  lemma HealthsTell(pool: Pool)
    requires Engines.Valid(pool)
    ensures TellsAll(HealthsOf(pool, SortedKeys(pool.Keys)), pool)
  {
    hide HealthOf, TellsHealth, Key, Engines.Valid, Pooled;
    var keys := SortedKeys(pool.Keys);
    KeysDistinct(pool.Keys);
    OnePerKey(pool, keys);
    var list := HealthsOf(pool, keys);
    forall i | 0 <= i < |list|
      ensures Handle(list[i].pier, list[i].service) == pool[keys[i]].handle && TellsHealth(list[i], pool)
    {
      HealthAt(pool, keys[i]);
    }
    forall i, j | 0 <= i < j < |list| ensures list[i].pier != list[j].pier || list[i].service != list[j].service {
      assert pool[keys[i]].handle != pool[keys[j]].handle;
    }
  }

  lemma HealthAt(pool: Pool, k: string)
    requires k in pool && Key(pool[k].handle) == k
    ensures var r := HealthOf(pool[k].handle, pool[k].bundle);
      Handle(r.pier, r.service) == pool[k].handle && TellsHealth(r, pool)
  {
    hide State, Controllers.Message, CodeOf, Tells;
    StateTells(pool[k].bundle);
  }

  /** The handles under different keys are different. */
  lemma OnePerKey(pool: Pool, keys: seq<string>)
    requires Engines.Valid(pool) && forall k :: k in keys ==> k in pool
    requires forall i, j :: 0 <= i < j < |keys| ==> keys[i] != keys[j]
    ensures forall i, j :: 0 <= i < j < |keys| ==> pool[keys[i]].handle != pool[keys[j]].handle
    ensures forall i :: 0 <= i < |keys| ==> Key(pool[keys[i]].handle) == keys[i] && Pooled(pool, pool[keys[i]].handle)
  {
    hide Key;
    forall i, j | 0 <= i < j < |keys| ensures pool[keys[i]].handle != pool[keys[j]].handle {
      assert Key(pool[keys[i]].handle) == keys[i] && Key(pool[keys[j]].handle) == keys[j];
    }
  }

  /** status() returns each pooled service exactly once, with its state and its message. */
  lemma StatusReturns(b: Backend, d: Files.Disk, env: Env, what: string -> string)
    requires Engines.Valid(b.pool) && Speaks(what)
    ensures var r := EndingOf(Call(STATUS, None), b, d, env, what);
      r.Returned? && r.content.OfHealths? && TellsAll(r.content.healths, b.pool)
  {
    hide Pushed, Complied, Performed, HealthsOf, TellsAll;
    CallGetsThrough(Call(STATUS, None), b, d, env, what);
    HealthsTell(b.pool);
  }

  /** status(id) returns the service asked for, or is an error if its key is not in the pool. */
  lemma StatusOneReturns(b: Backend, id: Handle, d: Files.Disk, env: Env, what: string -> string)
    requires Speaks(what)
    ensures var r := EndingOf(Call(STATUS, Some(id)), b, d, env, what);
      if Key(id) !in b.pool then r == TaskError(what("unknown service"))
      else
        && r.Returned? && r.content.OfHealth?
        && r.content.health.pier == id.pier && r.content.health.service == id.service
        && Tells(r.content.health.state, r.content.health.message, b.pool[Key(id)].bundle)
  {
    hide Pushed, Complied, Performed, State, Controllers.Message, CodeOf, Tells, Key;
    CallGetsThrough(Call(STATUS, Some(id)), b, d, env, what);
    if Key(id) in b.pool { StateTells(b.pool[Key(id)].bundle); }
  }

  /** The report tells of a pooled service, with all its carriers and no other. */
  ghost predicate TellsReport(r: Report, h: Handle, b: Bundle) {
    && r.pier == h.pier && r.service == h.service && Tells(r.state, r.message, b)
    && (forall pier, pid: uint32 :: Link(pier, pid) in r.tunnels <==> pier in b && pid in b[pier].tunnels)
  }

  lemma ReportIsTold(h: Handle, b: Bundle)
    requires forall q, n :: q in b && n in b[q].tunnels ==> n < 0x1_0000_0000
    ensures TellsReport(ReportOf(h, b), h, b)
  {
    hide Tunnels, State, Controllers.Message, CodeOf, Tells;
    StateTells(b);
    forall pier, pid: uint32
      ensures Link(pier, pid) in ReportOf(h, b).tunnels <==> pier in b && pid in b[pier].tunnels
    {
      ReportTells(h, b, pier, pid);
    }
  }

  /** The list has a report of each pooled service exactly once. */
  ghost predicate TellsAllReports(list: seq<Report>, pool: Pool) {
    && |list| == |pool|
    && (forall i, j :: 0 <= i < j < |list| ==> list[i].pier != list[j].pier || list[i].service != list[j].service)
    && (forall i :: 0 <= i < |list| ==> TellsOne(list[i], pool))
  }

  ghost predicate TellsOne(r: Report, pool: Pool) {
    var h := Handle(r.pier, r.service);
    Pooled(pool, h) && TellsReport(r, h, pool[Key(h)].bundle)
  }

  /** review() returns a report of each pooled service exactly once. */
  lemma ReviewReturns(b: Backend, d: Files.Disk, env: Env, what: string -> string)
    requires Engines.Valid(b.pool) && PidsFit(b.pool) && Speaks(what)
    ensures var r := EndingOf(Call(REVIEW, None), b, d, env, what);
      r.Returned? && r.content.OfReports? && TellsAllReports(r.content.reports, b.pool)
  {
    hide Pushed, Complied, Performed, ReportsOf, SmallPids, TellsAllReports;
    CallGetsThrough(Call(REVIEW, None), b, d, env, what);
    AnswerIsSmall(b, RequestMessage(Call(REVIEW, None)), d, env, what);
    ReportsTell(b.pool);
  }

  lemma ReportsTell(pool: Pool)
    requires Engines.Valid(pool) && PidsFit(pool)
    ensures TellsAllReports(ReportsOf(pool, SortedKeys(pool.Keys)), pool)
  {
    hide TellsOne, ReportOf, Key, Engines.Valid, Pooled, PidsFit;
    var keys := SortedKeys(pool.Keys);
    KeysDistinct(pool.Keys);
    OnePerKey(pool, keys);
    var list := ReportsOf(pool, keys);
    forall i | 0 <= i < |list|
      ensures Handle(list[i].pier, list[i].service) == pool[keys[i]].handle && TellsOne(list[i], pool)
    {
      ReportAt(pool, keys[i]);
    }
    forall i, j | 0 <= i < j < |list| ensures list[i].pier != list[j].pier || list[i].service != list[j].service {
      assert pool[keys[i]].handle != pool[keys[j]].handle;
    }
  }

  lemma ReportAt(pool: Pool, k: string)
    requires PidsFit(pool) && k in pool && Key(pool[k].handle) == k
    ensures var r := ReportOf(pool[k].handle, pool[k].bundle);
      Handle(r.pier, r.service) == pool[k].handle && TellsOne(r, pool)
  {
    hide TellsReport, ReportOf;
    ReportIsTold(pool[k].handle, pool[k].bundle);
    ReportNames(pool[k].handle, pool[k].bundle);
  }

  lemma ReportNames(h: Handle, b: Bundle)
    ensures Handle(ReportOf(h, b).pier, ReportOf(h, b).service) == h
  {
  }

  /** review(id) returns a report of what the pool has under the key, or is an error if it has nothing there. */
  lemma ReviewOneReturns(b: Backend, id: Handle, d: Files.Disk, env: Env, what: string -> string)
    requires PidsFit(b.pool) && Speaks(what)
    ensures var r := EndingOf(Call(REVIEW, Some(id)), b, d, env, what);
      if Key(id) !in b.pool then r == TaskError(what("unknown service"))
      else
        && r.Returned? && r.content.OfReport?
        && TellsReport(r.content.report, b.pool[Key(id)].handle, b.pool[Key(id)].bundle)
  {
    hide Pushed, Complied, Performed, TellsReport, ReportOf, SmallPids, Key;
    CallGetsThrough(Call(REVIEW, Some(id)), b, d, env, what);
    AnswerIsSmall(b, RequestMessage(Call(REVIEW, Some(id))), d, env, what);
    if Key(id) in b.pool { ReportIsTold(b.pool[Key(id)].handle, b.pool[Key(id)].bundle); }
  }

  // ---------------------------------------------------------------------------------------------------------
  // Errors
  // ---------------------------------------------------------------------------------------------------------

  /**
   Exactly when a call ends in a task_error: the home cannot be loaded, an engaged service is not there, or the
   service asked for is not pooled. Else it returns.
   */
  lemma ErrorsExactly(c: Call, b: Backend, d: Files.Disk, env: Env, what: string -> string)
    requires IsCall(c) && PidsFit(b.pool) && Engines.Valid(b.pool) && Speaks(what)
    ensures var r := EndingOf(c, b, d, env, what);
      var fails :=
        if c.action in {STATUS, REVIEW} then c.target.Some? && Key(c.target.value) !in b.pool
        else if c.target.None? then LoadAll(d).Err?
        else LoadOne(d, c.target.value).Err? || (c.action == ENGAGE && LoadOne(d, c.target.value).value.1.name == "");
      (r.TaskError? <==> fails) && (r.Returned? <==> !fails)
  {
    hide EndingOf, After, LoadAll, LoadOne, PidsFit, TellsAll, TellsReport, Tells, Key;
    if c.action == STATUS {
      if c.target.None? { StatusReturns(b, d, env, what); } else { StatusOneReturns(b, c.target.value, d, env, what); }
    } else if c.action == REVIEW {
      if c.target.None? { ReviewReturns(b, d, env, what); } else { ReviewOneReturns(b, c.target.value, d, env, what); }
    } else if c.target.None? {
      AllReaches(c, b, d, env, what);
    } else {
      OneReaches(c, b, d, env, what);
    }
  }

  /** A call that fails to load its files leaves the pool alone. */
  lemma FailedLoadIsIgnored(c: Call, b: Backend, d: Files.Disk, env: Env, what: string -> string)
    requires c.action in {UNPLUG, ENGAGE, ADJUST} && Speaks(what)
    requires if c.target.None? then LoadAll(d).Err? else LoadOne(d, c.target.value).Err?
    ensures After(c, b, d, env, what).pool == b.pool && EndingOf(c, b, d, env, what).TaskError?
  {
    hide EndingOf, After, LoadAll, LoadOne, Served;
    if c.target.None? { AllReaches(c, b, d, env, what); } else { OneReaches(c, b, d, env, what); }
    UnloadedIsIgnored(b, if c.action == UNPLUG then Unplug else if c.action == ENGAGE then Engage else Adjust, d, env);
  }

  /** A request that cannot be read, or asks for something unknown, changes nothing and is answered with an error. */
  lemma StrangeRequest(request: Tree, b: Backend, d: Files.Disk, env: Env, what: string -> string)
    requires Speaks(what)
    requires Pulled(request).Ok? ==> Pulled(request).value.action !in {UNPLUG, ENGAGE, ADJUST, STATUS, REVIEW}
    ensures var (after, reply) := Complied(b, request, d, env, what);
      && after == b
      && Pulled(reply).Ok? && Pulled(reply).value.payload.Error? && Pulled(reply).value.payload.text != ""
      && !IsOk(Pulled(reply).value)
      && (GetCode(request, ActionName).Ok? ==> Pulled(reply).value.action == GetCode(request, ActionName).value)
  {
    hide Pushed, ToPayload, GetCode, HealthsOf, ReportsOf, HealthOf, ReportOf, Served;
    if Pulled(request).Ok? {
      MessageRoundTrip(Answered(b, Pulled(request).value, d, env, what).message);
    } else {
      var action := GetCode(request, ActionName);
      var text := what(Pulled(request).error);
      MessageRoundTrip(Messages.Message(if action.Ok? then action.value else NAUGHT, Error(text)));
    }
  }
}
