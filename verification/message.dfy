/**
 The request protocol of src/backend/message.h and message.cpp: messages as property trees.

 A tree is what travels: writing one as JSON and reading it back gives the same tree. An empty array is written
 like an empty text, so both are the tree without children, and an array is a tree whose keys are all empty.
 */
module Messages {
  import opened Text
  import opened Handles
  import opened Files

  datatype Tree = Tree(data: string, kids: seq<(Name, Tree)>)

  /** The keys of a message; `Element` is the empty key of array elements. */
  datatype Name =
    | Element | ActionName | ErrorName | HandleName | HealthName | ReportName
    | PierName | ServiceName | StateName | MessageName | TunnelsName | PidName

  datatype Health = Health(pier: string, service: string, state: Code, message: string)

  datatype Report = Report(pier: string, service: string, state: Code, message: string, tunnels: seq<Link>)

  /** A carrier in a report; its pid is an unsigned 32-bit number. */
  datatype Link = Link(pier: string, pid: uint32)

  /** An enumeration value, which an int is cast to: health::status or message::command. */
  type Code = int32

  const ASLEEP: Code := 0
  const BROKEN: Code := 1
  const LONELY: Code := 2
  const BURDEN: Code := 3

  const NAUGHT: Code := 0
  const UNPLUG: Code := 1
  const ENGAGE: Code := 2
  const ADJUST: Code := 3
  const STATUS: Code := 4
  const REVIEW: Code := 5

  /** message::content. */
  datatype Content =
    | Error(text: string)
    | OfHandle(handle: Handle)
    | OfHealth(health: Health)
    | OfReport(report: Report)
    | OfHealths(healths: seq<Health>)
    | OfReports(reports: seq<Report>)

  datatype Message = Message(action: Code, payload: Content)

  /** message::ok(). */
  predicate IsOk(m: Message) {
    m.action != NAUGHT && (!m.payload.Error? || m.payload.text == "")
  }

  // ---------------------------------------------------------------------------------------------------------
  // Trees
  // ---------------------------------------------------------------------------------------------------------

  const EMPTY := Tree("", [])

  function Leaf(data: string): Tree { Tree(data, []) }

  /** ptree::count: how many children have the key. */
  function Count(t: Tree, key: Name): nat
    decreases |t.kids|
  {
    if t.kids == [] then 0 else (if t.kids[0].0 == key then 1 else 0) + Count(Tree("", t.kids[1..]), key)
  }

  /** The first child with the key. */
  function Child(t: Tree, key: Name): (r: Option<Tree>)
    ensures r.Some? <==> Count(t, key) != 0
    decreases |t.kids|
  {
    if t.kids == [] then None
    else if t.kids[0].0 == key then Some(t.kids[0].1)
    else Child(Tree("", t.kids[1..]), key)
  }

  function GetText(t: Tree, key: Name): Result<string> {
    match Child(t, key)
    case None => Err("No such node")
    case Some(c) => Ok(c.data)
  }

  function GetCode(t: Tree, key: Name): Result<Code> {
    match Child(t, key)
    case None => Err("No such node")
    case Some(c) => match ParseInt32(c.data) case None => Err("conversion of data failed") case Some(n) => Ok(n)
  }

  // ---------------------------------------------------------------------------------------------------------
  // Writing
  // ---------------------------------------------------------------------------------------------------------

  function HandleTree(h: Handle): Tree {
    Tree("", [(PierName, Leaf(h.pier)), (ServiceName, Leaf(h.service))])
  }

  function HealthTree(h: Health): Tree {
    Tree("", [(PierName, Leaf(h.pier)), (ServiceName, Leaf(h.service)), (StateName, Leaf(IntText(h.state))),
      (MessageName, Leaf(h.message))])
  }

  function LinkTree(l: Link): Tree {
    Tree("", [(PidName, Leaf(IntText(l.pid))), (PierName, Leaf(l.pier))])
  }

  function ReportTree(r: Report): Tree {
    Tree("", [(PierName, Leaf(r.pier)), (ServiceName, Leaf(r.service)), (StateName, Leaf(IntText(r.state))),
      (MessageName, Leaf(r.message)), (TunnelsName, Tree("", LinkKids(r.tunnels)))])
  }

  function LinkKids(links: seq<Link>): (r: seq<(Name, Tree)>)
    ensures |r| == |links| && forall i :: 0 <= i < |r| ==> r[i] == (Element, LinkTree(links[i]))
  {
    seq(|links|, i requires 0 <= i < |links| => (Element, LinkTree(links[i])))
  }

  function HealthKids(list: seq<Health>): (r: seq<(Name, Tree)>)
    ensures |r| == |list| && forall i :: 0 <= i < |r| ==> r[i] == (Element, HealthTree(list[i]))
  {
    seq(|list|, i requires 0 <= i < |list| => (Element, HealthTree(list[i])))
  }

  function ReportKids(list: seq<Report>): (r: seq<(Name, Tree)>)
    ensures |r| == |list| && forall i :: 0 <= i < |r| ==> r[i] == (Element, ReportTree(list[i]))
  {
    seq(|list|, i requires 0 <= i < |list| => (Element, ReportTree(list[i])))
  }

  function PayloadKids(c: Content): seq<(Name, Tree)> {
    match c
    case Error(text) => if text == "" then [] else [(ErrorName, Leaf(text))]
    case OfHandle(h) => [(HandleName, HandleTree(h))]
    case OfHealth(h) => [(HealthName, HealthTree(h))]
    case OfReport(r) => [(ReportName, ReportTree(r))]
    case OfHealths(list) => [(HealthName, Tree("", HealthKids(list)))]
    case OfReports(list) => [(ReportName, Tree("", ReportKids(list)))]
  }

  /** push_message. */
  function Pushed(m: Message): Tree {
    Tree("", [(ActionName, Leaf(IntText(m.action)))] + PayloadKids(m.payload))
  }

  // ---------------------------------------------------------------------------------------------------------
  // Reading
  // ---------------------------------------------------------------------------------------------------------

  function ToHandle(t: Tree): Result<Handle> {
    var pier, service := GetText(t, PierName), GetText(t, ServiceName);
    if pier.Err? then Err(pier.error) else if service.Err? then Err(service.error)
    else Ok(Handle(pier.value, service.value))
  }

  function ToHealth(t: Tree): Result<Health> {
    var pier, service := GetText(t, PierName), GetText(t, ServiceName);
    var state, text := GetCode(t, StateName), GetText(t, MessageName);
    if pier.Err? then Err(pier.error) else if service.Err? then Err(service.error)
    else if state.Err? then Err(state.error) else if text.Err? then Err(text.error)
    else Ok(Health(pier.value, service.value, state.value, text.value))
  }

  /** The pid is read as an int. */
  function ToLink(t: Tree): Result<Link> {
    var pid, pier := GetCode(t, PidName), GetText(t, PierName);
    if pid.Err? then Err(pid.error) else if pier.Err? then Err(pier.error)
    else Ok(Link(pier.value, (if pid.value < 0 then pid.value + 0x1_0000_0000 else pid.value) as uint32))
  }

  function ToLinks(kids: seq<(Name, Tree)>): Result<seq<Link>> {
    if kids == [] then Ok([]) else
      var first, rest := ToLink(kids[0].1), ToLinks(kids[1..]);
      if first.Err? then Err(first.error) else if rest.Err? then Err(rest.error) else Ok([first.value] + rest.value)
  }

  function ToReport(t: Tree): Result<Report> {
    var h := ToHealth(t);
    if h.Err? then Err(h.error) else
      var tunnels := Child(t, TunnelsName);
      var links := if tunnels.None? then Ok([]) else ToLinks(tunnels.value.kids);
      if links.Err? then Err(links.error)
      else Ok(Report(h.value.pier, h.value.service, h.value.state, h.value.message, links.value))
  }

  function ToHealths(kids: seq<(Name, Tree)>): Result<seq<Health>> {
    if kids == [] then Ok([]) else
      var first, rest := ToHealth(kids[0].1), ToHealths(kids[1..]);
      if first.Err? then Err(first.error) else if rest.Err? then Err(rest.error) else Ok([first.value] + rest.value)
  }

  function ToReports(kids: seq<(Name, Tree)>): Result<seq<Report>> {
    if kids == [] then Ok([]) else
      var first, rest := ToReport(kids[0].1), ToReports(kids[1..]);
      if first.Err? then Err(first.error) else if rest.Err? then Err(rest.error) else Ok([first.value] + rest.value)
  }

  function OrElse<T>(r: Result<T>, wrap: T -> Content): Result<Content> {
    if r.Ok? then Ok(wrap(r.value)) else Err(r.error)
  }

  function ToPayload(t: Tree): Result<Content> {
    if Count(t, ErrorName) != 0 then OrElse(GetText(t, ErrorName), x => Error(x))
    else if Count(t, HandleName) != 0 then OrElse(ToHandle(Child(t, HandleName).value), x => OfHandle(x))
    else if Count(t, HealthName) != 0 then
      var sub := Child(t, HealthName).value;
      if Count(sub, Element) != 0 || sub.kids == [] then OrElse(ToHealths(sub.kids), x => OfHealths(x))
      else OrElse(ToHealth(sub), x => OfHealth(x))
    else if Count(t, ReportName) != 0 then
      var sub := Child(t, ReportName).value;
      if Count(sub, Element) != 0 || sub.kids == [] then OrElse(ToReports(sub.kids), x => OfReports(x))
      else OrElse(ToReport(sub), x => OfReport(x))
    else Ok(Error(""))
  }

  /** pull_message. */
  function Pulled(t: Tree): Result<Message> {
    var action := GetCode(t, ActionName);
    if action.Err? then Err(action.error) else
      var payload := ToPayload(t);
      if payload.Err? then Err(payload.error) else Ok(Message(action.value, payload.value))
  }

  // ---------------------------------------------------------------------------------------------------------
  // Reading undoes writing
  // ---------------------------------------------------------------------------------------------------------

  predicate SmallLinks(links: seq<Link>) {
    forall i :: 0 <= i < |links| ==> links[i].pid < 0x8000_0000
  }

  /** All pids fit an int. */
  predicate SmallPids(c: Content) {
    match c
    case OfReport(r) => SmallLinks(r.tunnels)
    case OfReports(list) => forall i :: 0 <= i < |list| ==> SmallLinks(list[i].tunnels)
    case _ => true
  }

  lemma ChildOf(kids: seq<(Name, Tree)>, key: Name)
    requires kids != []
    ensures Child(Tree("", kids), key) == if kids[0].0 == key then Some(kids[0].1) else Child(Tree("", kids[1..]), key)
    ensures Count(Tree("", kids), key) == (if kids[0].0 == key then 1 else 0) + Count(Tree("", kids[1..]), key)
  {
  }

  lemma CodeRoundTrip(n: int)
    ensures ParseInt32(IntText(n)) == if -0x8000_0000 <= n < 0x8000_0000 then Some(n) else None
  {
    IntRoundTrip(n, -0x8000_0000, 0x8000_0000);
  }

  predicate StartsLikeHealth(kids: seq<(Name, Tree)>, h: Health) {
    && |kids| >= 4 && kids[0] == (PierName, Leaf(h.pier)) && kids[1] == (ServiceName, Leaf(h.service))
    && kids[2] == (StateName, Leaf(IntText(h.state))) && kids[3] == (MessageName, Leaf(h.message))
  }

  lemma HealthChild(kids: seq<(Name, Tree)>, h: Health, key: Name)
    requires StartsLikeHealth(kids, h)
    ensures Child(Tree("", kids), key) ==
        match key
        case PierName => Some(Leaf(h.pier))
        case ServiceName => Some(Leaf(h.service))
        case StateName => Some(Leaf(IntText(h.state)))
        case MessageName => Some(Leaf(h.message))
        case _ => Child(Tree("", kids[4..]), key)
  {
    hide IntText;
    ChildOf(kids, key);
    ChildOf(kids[1..], key);
    ChildOf(kids[2..], key);
    ChildOf(kids[3..], key);
    assert kids[1..][1..] == kids[2..] && kids[2..][1..] == kids[3..] && kids[3..][1..] == kids[4..];
  }

  lemma HealthReads(kids: seq<(Name, Tree)>, h: Health)
    requires StartsLikeHealth(kids, h)
    ensures ToHealth(Tree("", kids)) == Ok(h)
  {
    hide IntText, ParseInt32, Child;
    CodeRoundTrip(h.state);
    HealthChild(kids, h, PierName);
    HealthChild(kids, h, ServiceName);
    HealthChild(kids, h, StateName);
    HealthChild(kids, h, MessageName);
  }

  lemma HealthRoundTrip(h: Health)
    ensures ToHealth(HealthTree(h)) == Ok(h)
    ensures Count(HealthTree(h), Element) == 0 && HealthTree(h).kids != []
  {
    hide IntText, ToHealth;
    HealthReads(HealthTree(h).kids, h);
    HealthChild(HealthTree(h).kids, h, Element);
  }

  lemma LinkRoundTrip(l: Link)
    ensures ToLink(LinkTree(l)) == if l.pid < 0x8000_0000 then Ok(l) else Err("conversion of data failed")
  {
    hide IntText, ParseInt32;
    CodeRoundTrip(l.pid);
    var kids := LinkTree(l).kids;
    ChildOf(kids, PidName);
    ChildOf(kids, PierName);
    ChildOf(kids[1..], PierName);
  }

  lemma {:induction false} LinksRoundTrip(links: seq<Link>)
    ensures ToLinks(LinkKids(links)) == if SmallLinks(links) then Ok(links) else Err("conversion of data failed")
  {
    hide ToLink, LinkTree;
    if links != [] {
      LinkRoundTrip(links[0]);
      LinksRoundTrip(links[1..]);
      assert LinkKids(links)[1..] == LinkKids(links[1..]);
      assert links == [links[0]] + links[1..];
      assert SmallLinks(links) <==> links[0].pid < 0x8000_0000 && SmallLinks(links[1..]) by {
        if links[0].pid < 0x8000_0000 && SmallLinks(links[1..]) {
          forall i | 0 <= i < |links| ensures links[i].pid < 0x8000_0000 {
            if i > 0 { assert links[i] == links[1..][i - 1]; }
          }
        }
      }
    }
  }

  lemma ReportRoundTrip(r: Report)
    ensures ToReport(ReportTree(r)) == if SmallLinks(r.tunnels) then Ok(r) else Err("conversion of data failed")
    ensures Count(ReportTree(r), Element) == 0 && ReportTree(r).kids != []
  {
    hide IntText, ToHealth, ToLinks, Child, Count;
    var kids := ReportTree(r).kids;
    var h := Health(r.pier, r.service, r.state, r.message);
    HealthReads(kids, h);
    HealthChild(kids, h, TunnelsName);
    HealthChild(kids, h, Element);
    ChildOf(kids[4..], TunnelsName);
    ChildOf(kids[4..], Element);
    assert kids[4..][1..] == [];
    NoChild(Element);
    LinksRoundTrip(r.tunnels);
  }

  lemma {:induction false} HealthsRoundTrip(list: seq<Health>)
    ensures ToHealths(HealthKids(list)) == Ok(list)
    ensures Count(Tree("", HealthKids(list)), Element) == |list|
  {
    hide ToHealth, HealthTree;
    if list != [] {
      HealthRoundTrip(list[0]);
      HealthsRoundTrip(list[1..]);
      assert HealthKids(list)[1..] == HealthKids(list[1..]);
      ChildOf(HealthKids(list), Element);
      assert list == [list[0]] + list[1..];
    }
  }

  lemma SmallOneByOne(list: seq<Report>)
    ensures SmallPids(OfReports(list)) <==>
      list == [] || (SmallLinks(list[0].tunnels) && SmallPids(OfReports(list[1..])))
  {
    hide SmallLinks;
    if list != [] && SmallLinks(list[0].tunnels) && SmallPids(OfReports(list[1..])) {
      forall i | 0 <= i < |list| ensures SmallLinks(list[i].tunnels) {
        if i > 0 { assert list[i] == list[1..][i - 1]; }
      }
    }
  }

  lemma {:induction false} ReportsRoundTrip(list: seq<Report>)
    ensures ToReports(ReportKids(list)) ==
      if SmallPids(OfReports(list)) then Ok(list) else Err("conversion of data failed")
    ensures Count(Tree("", ReportKids(list)), Element) == |list|
  {
    hide ToReport, ReportTree, SmallLinks, SmallPids;
    SmallOneByOne(list);
    if list != [] {
      ReportRoundTrip(list[0]);
      ReportsRoundTrip(list[1..]);
      assert ReportKids(list)[1..] == ReportKids(list[1..]);
      ChildOf(ReportKids(list), Element);
      assert list == [list[0]] + list[1..];
    }
  }

  lemma HandleRoundTrip(h: Handle)
    ensures ToHandle(HandleTree(h)) == Ok(h)
  {
    var kids := HandleTree(h).kids;
    ChildOf(kids, PierName);
    ChildOf(kids, ServiceName);
    ChildOf(kids[1..], ServiceName);
  }

  function PushedChild(m: Message, key: Name): Option<Tree> {
    var kids := PayloadKids(m.payload);
    if key == ActionName then Some(Leaf(IntText(m.action)))
    else if kids != [] && kids[0].0 == key then Some(kids[0].1) else None
  }

  lemma PushedChildren(m: Message, key: Name)
    ensures Child(Pushed(m), key) == PushedChild(m, key)
  {
    hide IntText, HandleTree, HealthTree, ReportTree, HealthKids, ReportKids, Child, Count;
    var kids := PayloadKids(m.payload);
    ChildOf(Pushed(m).kids, key);
    assert Pushed(m).kids[1..] == kids;
    NoChild(key);
    if kids != [] {
      ChildOf(kids, key);
      assert kids[1..] == [];
    }
  }

  lemma NoChild(key: Name)
    ensures Child(Tree("", []), key) == None
  {
  }

  /**
   A pushed message is pulled back unchanged exactly when all its pids fit an int: a single health or report is
   told from a list under the same key, and empty lists come back as lists. Otherwise pulling is an error.
   */
  lemma MessageRoundTrip(m: Message)
    ensures SmallPids(m.payload) ==> Pulled(Pushed(m)) == Ok(m)
    ensures !SmallPids(m.payload) ==> Pulled(Pushed(m)).Err?
  {
    hide IntText, ParseInt32, HandleTree, HealthTree, ReportTree, Child, Count, ToHandle, ToHealth, ToReport;
    hide ToHealths, ToReports, Pushed, SmallLinks;
    CodeRoundTrip(m.action);
    forall key
      ensures Child(Pushed(m), key) == PushedChild(m, key)
      ensures Count(Pushed(m), key) != 0 <==> PushedChild(m, key).Some?
    {
      PushedChildren(m, key);
    }
    match m.payload
    case Error(_) =>
    case OfHandle(h) => HandleRoundTrip(h);
    case OfHealth(h) => HealthRoundTrip(h);
    case OfReport(r) => ReportRoundTrip(r);
    case OfHealths(list) => HealthsRoundTrip(list);
    case OfReports(list) => ReportsRoundTrip(list);
  }

  /** A report without tunnels is one of no tunnels. */
  lemma NoTunnels(h: Health)
    ensures ToReport(HealthTree(h)) == Ok(Report(h.pier, h.service, h.state, h.message, []))
  {
    hide IntText, ToHealth, Child;
    HealthRoundTrip(h);
    HealthChild(HealthTree(h).kids, h, TunnelsName);
    NoChild(TunnelsName);
  }

  /** A message with an error is an error, whatever else it carries; one without any payload is an empty error. */
  lemma ErrorsWin(t: Tree)
    requires GetCode(t, ActionName).Ok?
    ensures Child(t, ErrorName).Some? ==>
      Pulled(t) == Ok(Message(GetCode(t, ActionName).value, Error(Child(t, ErrorName).value.data)))
    ensures (forall key :: key != ActionName ==> Child(t, key).None?) ==>
      Pulled(t) == Ok(Message(GetCode(t, ActionName).value, Error("")))
  {
    hide ToHandle, ToHealth, ToReport, ToHealths, ToReports;
  }

  // ---------------------------------------------------------------------------------------------------------
  // The loops
  // ---------------------------------------------------------------------------------------------------------

  /** put_child for a new key, and push_back. */
  function Append(t: Tree, key: Name, child: Tree): Tree {
    t.(kids := t.kids + [(key, child)])
  }

  method ConvertReport(r: Report) returns (doc: Tree)
    ensures doc == ReportTree(r)
  {
    var context := EMPTY;
    for i := 0 to |r.tunnels|
      invariant context == Tree("", LinkKids(r.tunnels[..i]))
    {
      context := Append(context, Element, LinkTree(r.tunnels[i]));
    }
    assert r.tunnels[..|r.tunnels|] == r.tunnels;
    doc := HealthTree(Health(r.pier, r.service, r.state, r.message));
    doc := Append(doc, TunnelsName, context);
  }

  method PushMessage(m: Message) returns (doc: Tree)
    ensures doc == Pushed(m)
  {
    hide IntText;
    doc := Append(EMPTY, ActionName, Leaf(IntText(m.action)));
    match m.payload {
      case Error(text) =>
        if text != "" {
          doc := Append(doc, ErrorName, Leaf(text));
        }
      case OfHandle(h) => doc := Append(doc, HandleName, HandleTree(h));
      case OfHealth(h) => doc := Append(doc, HealthName, HealthTree(h));
      case OfReport(r) =>
        var report := ConvertReport(r);
        doc := Append(doc, ReportName, report);
      case OfHealths(list) =>
        var health := EMPTY;
        for i := 0 to |list|
          invariant health == Tree("", HealthKids(list[..i]))
        {
          health := Append(health, Element, HealthTree(list[i]));
        }
        assert list[..|list|] == list;
        doc := Append(doc, HealthName, health);
      case OfReports(list) =>
        var report := EMPTY;
        for i := 0 to |list|
          invariant report == Tree("", ReportKids(list[..i]))
        {
          var item := ConvertReport(list[i]);
          report := Append(report, Element, item);
        }
        assert list[..|list|] == list;
        doc := Append(doc, ReportName, report);
    }
  }

  function Prepend<T>(list: seq<T>, r: Result<seq<T>>): Result<seq<T>> {
    if r.Ok? then Ok(list + r.value) else r
  }

  lemma PrependNone<T>(r: Result<seq<T>>)
    ensures Prepend([], r) == r
  {
    if r.Ok? { assert [] + r.value == r.value; }
  }

  lemma PrependTwice<T>(a: seq<T>, b: seq<T>, r: Result<seq<T>>)
    ensures Prepend(a, Prepend(b, r)) == Prepend(a + b, r)
  {
    if r.Ok? { assert a + (b + r.value) == a + b + r.value; }
  }

  method ReadHealths(kids: seq<(Name, Tree)>) returns (r: Result<seq<Health>>)
    ensures r == ToHealths(kids)
  {
    hide ToHealth;
    var rest := kids;
    var list: seq<Health> := [];
    PrependNone(ToHealths(kids));
    while rest != []
      invariant ToHealths(kids) == Prepend(list, ToHealths(rest))
      decreases |rest|
    {
      var h := ToHealth(rest[0].1);
      if h.Err? {
        return Err(h.error);
      }
      PrependTwice(list, [h.value], ToHealths(rest[1..]));
      list, rest := list + [h.value], rest[1..];
    }
    assert list + [] == list;
    return Ok(list);
  }

  method ReadReports(kids: seq<(Name, Tree)>) returns (r: Result<seq<Report>>)
    ensures r == ToReports(kids)
  {
    hide ToReport;
    var rest := kids;
    var list: seq<Report> := [];
    PrependNone(ToReports(kids));
    while rest != []
      invariant ToReports(kids) == Prepend(list, ToReports(rest))
      decreases |rest|
    {
      var h := ToReport(rest[0].1);
      if h.Err? {
        return Err(h.error);
      }
      PrependTwice(list, [h.value], ToReports(rest[1..]));
      list, rest := list + [h.value], rest[1..];
    }
    assert list + [] == list;
    return Ok(list);
  }

  method PullMessage(doc: Tree) returns (r: Result<Message>)
    ensures r == Pulled(doc)
  {
    hide ToHealths, ToReports, ToHandle, ToHealth, ToReport, GetCode, GetText;
    var action := GetCode(doc, ActionName);
    if action.Err? {
      return Err(action.error);
    }
    var payload: Result<Content> := Ok(Error(""));
    if Count(doc, ErrorName) != 0 {
      payload := OrElse(GetText(doc, ErrorName), x => Error(x));
    } else if Count(doc, HandleName) != 0 {
      payload := OrElse(ToHandle(Child(doc, HandleName).value), x => OfHandle(x));
    } else if Count(doc, HealthName) != 0 {
      var health := Child(doc, HealthName).value;
      if Count(health, Element) != 0 || health.kids == [] {
        var list := ReadHealths(health.kids);
        payload := OrElse(list, x => OfHealths(x));
      } else {
        payload := OrElse(ToHealth(health), x => OfHealth(x));
      }
    } else if Count(doc, ReportName) != 0 {
      var report := Child(doc, ReportName).value;
      if Count(report, Element) != 0 || report.kids == [] {
        var list := ReadReports(report.kids);
        payload := OrElse(list, x => OfReports(x));
      } else {
        payload := OrElse(ToReport(report), x => OfReport(x));
      }
    }
    return if payload.Err? then Err(payload.error) else Ok(Message(action.value, payload.value));
  }
}
