/**
 One request from client to engine and back: src/backend/client.cpp, engine::comply of src/backend/server.cpp.
 */
module Rpc {
  import opened Text
  import opened Order
  import opened Controllers
  import opened Handles
  import opened Files
  import opened Engines
  import opened EngineFiles
  import opened Backends
  import opened Messages

  // ---------------------------------------------------------------------------------------------------------
  // status() and report()
  // ---------------------------------------------------------------------------------------------------------

  function CodeOf(s: Status): Code {
    match s
    case Asleep => ASLEEP
    case Broken => BROKEN
    case Lonely => LONELY
    case Burden => BURDEN
  }

  function HealthOf(h: Handle, b: Bundle): Health {
    Health(h.pier, h.service, CodeOf(State(b)), Controllers.Message(b))
  }

  /** static_cast<uint32_t>. */
  function LinksOf(tunnels: seq<Tunnel>): (r: seq<Link>)
    ensures |r| == |tunnels|
    ensures forall i :: 0 <= i < |r| ==> r[i] == Link(tunnels[i].pier, tunnels[i].pid % 0x1_0000_0000)
  {
    seq(|tunnels|, i requires 0 <= i < |tunnels| => Link(tunnels[i].pier, tunnels[i].pid % 0x1_0000_0000))
  }

  function ReportOf(h: Handle, b: Bundle): Report {
    Report(h.pier, h.service, CodeOf(State(b)), Controllers.Message(b), LinksOf(Tunnels(b)))
  }

  function HealthsOf(pool: Pool, keys: seq<string>): (r: seq<Health>)
    requires forall k :: k in keys ==> k in pool
    ensures |r| == |keys| && forall i :: 0 <= i < |r| ==> r[i] == HealthOf(pool[keys[i]].handle, pool[keys[i]].bundle)
  {
    seq(|keys|, i requires 0 <= i < |keys| => HealthOf(pool[keys[i]].handle, pool[keys[i]].bundle))
  }

  function ReportsOf(pool: Pool, keys: seq<string>): (r: seq<Report>)
    requires forall k :: k in keys ==> k in pool
    ensures |r| == |keys| && forall i :: 0 <= i < |r| ==> r[i] == ReportOf(pool[keys[i]].handle, pool[keys[i]].bundle)
  {
    seq(|keys|, i requires 0 <= i < |keys| => ReportOf(pool[keys[i]].handle, pool[keys[i]].bundle))
  }

  // ---------------------------------------------------------------------------------------------------------
  // comply()
  // ---------------------------------------------------------------------------------------------------------

  datatype Reply = Reply(backend: Backend, message: Messages.Message)

  function CommandOf(action: Code): Command
    requires action in {UNPLUG, ENGAGE, ADJUST}
  {
    if action == UNPLUG then Unplug else if action == ENGAGE then Engage else Adjust
  }

  function RequestOf(m: Messages.Message): Request
    requires m.action in {UNPLUG, ENGAGE, ADJUST}
  {
    if m.payload.OfHandle? then Only(CommandOf(m.action), m.payload.handle) else All(CommandOf(m.action))
  }

  /** The text of the exception that serving a request ends with, if it does. */
  function Failure(b: Backend, req: Request, disk: Disk): Option<string> {
    match req
    case All(_) => if LoadAll(disk).Err? then Some(LoadAll(disk).error) else None
    case Only(cmd, id) =>
      if LoadOne(disk, id).Err? then Some(LoadOne(disk, id).error)
      else if cmd.Engage? && LoadOne(disk, id).value.1.name == "" then Some("wrong service")
      else None
  }

  /** The dispatcher. `what` gives the library's text of an exception. */
  function Answered(b: Backend, m: Messages.Message, disk: Disk, env: Env, what: string -> string): Reply {
    if m.action in {UNPLUG, ENGAGE, ADJUST} then
      var req := RequestOf(m);
      var failure := Failure(b, req, disk);
      var text := if failure.Some? then what(failure.value) else "";
      Reply(Served(b, req, disk, env), Messages.Message(m.action, Error(text)))
    else if m.action == STATUS then
      if m.payload.OfHandle? then
        var k := Key(m.payload.handle);
        var content :=
          if k in b.pool then OfHealth(HealthOf(m.payload.handle, b.pool[k].bundle))
          else Error(what("unknown service"));
        Reply(b, Messages.Message(STATUS, content))
      else Reply(b, Messages.Message(STATUS, OfHealths(HealthsOf(b.pool, SortedKeys(b.pool.Keys)))))
    else if m.action == REVIEW then
      if m.payload.OfHandle? then
        var k := Key(m.payload.handle);
        var content :=
          if k in b.pool then OfReport(ReportOf(b.pool[k].handle, b.pool[k].bundle))
          else Error(what("unknown service"));
        Reply(b, Messages.Message(REVIEW, content))
      else Reply(b, Messages.Message(REVIEW, OfReports(ReportsOf(b.pool, SortedKeys(b.pool.Keys)))))
    else Reply(b, Messages.Message(m.action, Error("wrong command")))
  }

  /** comply(): a request that cannot be read is answered with the action read so far. */
  function Complied(b: Backend, request: Tree, disk: Disk, env: Env, what: string -> string): (Backend, Tree) {
    var m := Pulled(request);
    if m.Err? then
      var action := GetCode(request, ActionName);
      (b, Pushed(Messages.Message(if action.Ok? then action.value else NAUGHT, Error(what(m.error)))))
    else
      var r := Answered(b, m.value, disk, env, what);
      (r.backend, Pushed(r.message))
  }

  // ---------------------------------------------------------------------------------------------------------
  // The client
  // ---------------------------------------------------------------------------------------------------------

  /** The ten calls of the client: an action for all services or for one. */
  datatype Call = Call(action: Code, target: Option<Handle>)

  predicate IsCall(c: Call) {
    c.action in {UNPLUG, ENGAGE, ADJUST, STATUS, REVIEW}
  }

  function RequestMessage(c: Call): Messages.Message {
    Messages.Message(c.action, match c.target case None => Error("") case Some(h) => OfHandle(h))
  }

  /** The alternative that perform<result> extracts for a call. */
  predicate Extracts(c: Call, payload: Content) {
    if c.action == STATUS then (if c.target.None? then payload.OfHealths? else payload.OfHealth?)
    else if c.action == REVIEW then (if c.target.None? then payload.OfReports? else payload.OfReport?)
    else payload.Error?
  }

  /** What a call of the client ends with: a result, a task_error, or another exception of perform. */
  datatype Ending = Returned(content: Content) | TaskError(text: string) | Broke

  function Performed(c: Call, reply: Tree): Ending {
    var m := Pulled(reply);
    if m.Err? then Broke
    else if !IsOk(m.value) then if m.value.payload.Error? then TaskError(m.value.payload.text) else Broke
    else if Extracts(c, m.value.payload) then Returned(m.value.payload)
    else Broke
  }

  predicate PidsFit(pool: Pool) {
    forall k, pier, pid ::
      k in pool && pier in pool[k].bundle && pid in pool[k].bundle[pier].tunnels ==> pid < 0x8000_0000
  }

  lemma ReportsAreSmall(b: Bundle)
    requires forall pier, pid :: pier in b && pid in b[pier].tunnels ==> pid < 0x8000_0000
    ensures SmallLinks(LinksOf(Tunnels(b)))
  {
    hide Tunnels;
    forall i | 0 <= i < |Tunnels(b)| ensures LinksOf(Tunnels(b))[i].pid < 0x8000_0000 {
      TunnelsComplete(b, Tunnels(b)[i]);
    }
  }

  lemma AnswerIsSmall(b: Backend, m: Messages.Message, disk: Disk, env: Env, what: string -> string)
    requires PidsFit(b.pool)
    ensures SmallPids(Answered(b, m, disk, env, what).message.payload)
  {
    hide SmallLinks, LinksOf, Tunnels, State, Controllers.Message, LoadAll, LoadOne, Served;
    forall k | k in b.pool ensures SmallLinks(LinksOf(Tunnels(b.pool[k].bundle))) { ReportsAreSmall(b.pool[k].bundle); }
  }

  lemma RequestIsSmall(c: Call)
    ensures SmallPids(RequestMessage(c).payload)
  {
  }

  /**
   A call gets through: the backend serves exactly the request meant, and the client ends with the engine's
   answer, of the very alternative it extracts, or with a task_error that carries the exception's text. The one
   exception is an answer with a pid that does not fit an int, which the client cannot read.
   */
  lemma CallGetsThrough(c: Call, b: Backend, disk: Disk, env: Env, what: string -> string)
    requires IsCall(c) && forall e :: what(e) != ""
    ensures var (after, reply) := Complied(b, Pushed(RequestMessage(c)), disk, env, what);
      var answer := Answered(b, RequestMessage(c), disk, env, what);
      && after == answer.backend && answer.message.action == c.action
      && Performed(c, reply) ==
           if !SmallPids(answer.message.payload) then Broke
           else if IsOk(answer.message) then Returned(answer.message.payload)
           else TaskError(answer.message.payload.text)
  {
    hide Pushed, Pulled, SmallPids, HealthsOf, ReportsOf, HealthOf, ReportOf, Served, Failure;
    RequestIsSmall(c);
    MessageRoundTrip(RequestMessage(c));
    MessageRoundTrip(Answered(b, RequestMessage(c), disk, env, what).message);
  }

  /** As long as all carriers have pids below 2^31 no call of the client breaks. */
  lemma CallsDoNotBreak(c: Call, b: Backend, disk: Disk, env: Env, what: string -> string)
    requires IsCall(c) && PidsFit(b.pool) && forall e :: what(e) != ""
    ensures Performed(c, Complied(b, Pushed(RequestMessage(c)), disk, env, what).1) != Broke
  {
    hide PidsFit, Pushed, Answered, Complied, Performed, SmallPids;
    CallGetsThrough(c, b, disk, env, what);
    AnswerIsSmall(b, RequestMessage(c), disk, env, what);
  }

  /** A list of statuses has every pooled service once and tells its state and message. */
  lemma StatusIsComplete(pool: Pool, h: Handle)
    requires Engines.Valid(pool)
    ensures var list := HealthsOf(pool, SortedKeys(pool.Keys));
      && |list| == |pool|
      && (Pooled(pool, h) <==> exists i :: 0 <= i < |list| && list[i].pier == h.pier && list[i].service == h.service)
      && (Pooled(pool, h) ==> HealthOf(h, pool[Key(h)].bundle) in list)
  {
    hide State, Controllers.Message, CodeOf;
    var keys := SortedKeys(pool.Keys);
    var list := HealthsOf(pool, keys);
    if Pooled(pool, h) {
      var i :| 0 <= i < |keys| && keys[i] == Key(h);
      assert list[i] == HealthOf(h, pool[Key(h)].bundle);
    }
    if i :| 0 <= i < |list| && list[i].pier == h.pier && list[i].service == h.service {
      assert pool[keys[i]].handle == h && Key(h) == keys[i];
    }
  }

  lemma PidFits(pid: nat)
    requires pid < 0x1_0000_0000
    ensures pid % 0x1_0000_0000 == pid
  {
  }

  /** A report tells the state, the message and exactly the carriers that are alive. */
  lemma ReportTells(h: Handle, b: Bundle, pier: string, pid: uint32)
    requires forall q, n :: q in b && n in b[q].tunnels ==> n < 0x1_0000_0000
    ensures Link(pier, pid) in ReportOf(h, b).tunnels <==> pier in b && pid in b[pier].tunnels
    ensures ReportOf(h, b).state == BROKEN ==> ReportOf(h, b).message != ""
    ensures ReportOf(h, b).state == BURDEN ==> ReportOf(h, b).tunnels != []
    ensures ReportOf(h, b).state == ASLEEP || ReportOf(h, b).state == LONELY ==>
      ReportOf(h, b).tunnels == [] && ReportOf(h, b).message == ""
  {
    hide Tunnels, State, Controllers.Message;
    ReportsCoherent(b);
    var list := Tunnels(b);
    forall i | 0 <= i < |list| ensures LinksOf(list)[i].pier == list[i].pier && LinksOf(list)[i].pid == list[i].pid {
      TunnelsComplete(b, list[i]);
      assert list[i] in list;
      PidFits(list[i].pid);
    }
    TunnelsComplete(b, Tunnel(pier, pid));
    if Tunnel(pier, pid) in list {
      var i :| 0 <= i < |list| && list[i] == Tunnel(pier, pid);
      assert LinksOf(list)[i] == Link(pier, pid);
    }
  }

  /** The report is of a pooled service and lists only carriers of it. */
  predicate ShownBy(pool: Pool, r: Report) {
    var h := Handle(r.pier, r.service);
    && Pooled(pool, h)
    && forall i :: 0 <= i < |r.tunnels| ==> Carrier(pool, h, r.tunnels[i].pier, r.tunnels[i].pid)
  }

  lemma ReportIsShown(pool: Pool, k: string)
    requires Engines.Valid(pool) && PidsFit(pool) && k in pool
    ensures ShownBy(pool, ReportOf(pool[k].handle, pool[k].bundle))
  {
    hide Tunnels, State, Controllers.Message, CodeOf;
    var e := pool[k];
    var r := ReportOf(e.handle, e.bundle);
    forall i | 0 <= i < |r.tunnels| ensures Carrier(pool, e.handle, r.tunnels[i].pier, r.tunnels[i].pid) {
      ReportTells(e.handle, e.bundle, r.tunnels[i].pier, r.tunnels[i].pid);
    }
  }

  /** Every report in an answer is of a pooled service and lists only carriers that are alive. */
  lemma AnswerShowsPool(b: Backend, m: Messages.Message, disk: Disk, env: Env, what: string -> string)
    requires Engines.Valid(b.pool) && PidsFit(b.pool)
    ensures match Answered(b, m, disk, env, what).message.payload
      case OfReport(r) => ShownBy(b.pool, r)
      case OfReports(list) => |list| == |b.pool| && forall i :: 0 <= i < |list| ==> ShownBy(b.pool, list[i])
      case _ => true
  {
    hide Tunnels, State, Controllers.Message, LoadAll, LoadOne, Served, ReportOf, HealthOf, ShownBy, PidsFit;
    forall k | k in b.pool ensures ShownBy(b.pool, ReportOf(b.pool[k].handle, b.pool[k].bundle)) {
      ReportIsShown(b.pool, k);
    }
  }
}
