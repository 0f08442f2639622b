/**
 The files of a WebPier home and of its repositories, and the three readers of them: the context of
 src/store/context.cpp and the bulk and single loaders of the engine in src/backend/server.cpp.

 A document is a property tree flattened to its leaves.
 */
module Files {
  import opened Text
  import opened Settings
  import opened Order

  datatype Result<+T> = Ok(value: T) | Err(error: string)

  /** The leaves of a pier entry and of the configuration file, by key or dotted path. */
  datatype Leaf =
    | LocalLeaf | NameLeaf | PierLeaf | AddressLeaf | GatewayLeaf | RendezvousLeaf | ProtoLeaf | RoleLeaf | RouteLeaf
    | AutostartLeaf | ObscureLeaf
    | RepoLeaf | LogFolderLeaf | LogLevelLeaf                                       // repo, log.*
    | StunLeaf | StunUdpLeaf | StunTcpLeaf | NatTestLeaf | NatHopsLeaf              // nat.stun, nat.stun.*, nat.*
    | BootstrapLeaf | DhtPortLeaf                                                   // dht.*
    | SmtpLeaf | ImapLeaf | LoginLeaf | PasswordLeaf | EmailCertLeaf | EmailKeyLeaf | EmailCaLeaf   // email.*
    | RelayLeaf | RelayCertLeaf | RelayKeyLeaf | RelayCaLeaf                        // relay.*

  type Doc = map<Leaf, string>
  type Item = map<Leaf, string>
  type Services = map<string, Service>

  /** The array "services" of a pier file. */
  type PierDoc = seq<Item>

  function Get(doc: Doc, key: Leaf, default: string): string {
    if key in doc then doc[key] else default
  }

  function GetInt(doc: Doc, key: Leaf, default: int, low: int, high: int): (n: int)
    requires low <= default < high
    ensures low <= n < high
  {
    if key in doc && ParseInt(doc[key], low, high).Some? then ParseInt(doc[key], low, high).value else default
  }

  function GetBool(doc: Doc, key: Leaf, default: bool): bool {
    if key in doc && ParseBool(doc[key]).Some? then ParseBool(doc[key]).value else default
  }

  function GetInt32(doc: Doc, key: Leaf, default: int32): int32 {
    GetInt(doc, key, default, -0x8000_0000, 0x8000_0000)
  }

  lemma GetIntOf(doc: Doc, key: Leaf, n: int, default: int, low: int, high: int)
    requires low <= default < high && low <= n < high
    requires key in doc && doc[key] == IntText(n)
    ensures GetInt(doc, key, default, low, high) == n
  {
    IntRoundTrip(n, low, high);
  }

  // ---------------------------------------------------------------------------------------------------------
  // Pier files
  // ---------------------------------------------------------------------------------------------------------

  function ItemOf(s: Service): Item {
    map[LocalLeaf := BoolText(s.local), NameLeaf := s.name, PierLeaf := s.pier, AddressLeaf := s.address,
        GatewayLeaf := s.gateway, RendezvousLeaf := s.rendezvous,
        ProtoLeaf := IntText(s.proto), RoleLeaf := IntText(s.role),
        RouteLeaf := IntText(s.route), AutostartLeaf := BoolText(s.autostart), ObscureLeaf := BoolText(s.obscure)]
  }

  /** context_impl::load_pier_config for one entry: every field has a default. */
  function ContextItem(item: Item, isLocalPier: bool): Service {
    Service(GetBool(item, LocalLeaf, isLocalPier),
      Get(item, NameLeaf, ""), Get(item, PierLeaf, ""), Get(item, AddressLeaf, ""),
      Get(item, GatewayLeaf, DEFAULT_IP4_GATEWAY), Get(item, RendezvousLeaf, ""), GetInt32(item, ProtoLeaf, PROTO_UDP),
      GetInt32(item, RoleLeaf, ROLE_EITHER), GetInt32(item, RouteLeaf, ROUTE_DIRECT),
      GetBool(item, AutostartLeaf, false), GetBool(item, ObscureLeaf, true))
  }

  /** The services of a pier file by name; of two entries with one name emplace() keeps the first. */
  function ContextServices(doc: PierDoc, isLocalPier: bool): Services {
    if doc == [] then map[] else
      var unit := ContextItem(doc[0], isLocalPier);
      ContextServices(doc[1..], isLocalPier)[unit.name := unit]
  }

  lemma NoServices(isLocalPier: bool)
    ensures ContextServices([], isLocalPier) == map[]
  {
  }

  predicate Keyed(services: Services) {
    forall name :: name in services ==> services[name].name == name
  }

  function ListOf(keys: seq<string>, services: Services): (r: seq<Service>)
    requires forall k :: k in keys ==> k in services
    ensures |r| == |keys| && forall i :: 0 <= i < |r| ==> r[i] == services[keys[i]]
  {
    seq(|keys|, i requires 0 <= i < |keys| => services[keys[i]])
  }

  function ItemsOf(list: seq<Service>): (r: PierDoc)
    ensures |r| == |list| && forall i :: 0 <= i < |r| ==> r[i] == ItemOf(list[i])
  {
    seq(|list|, i requires 0 <= i < |list| => ItemOf(list[i]))
  }

  /** context_impl::save_pier_config: one entry per service, in the order of the map. */
  function SavedDoc(services: Services): PierDoc {
    ItemsOf(ListOf(SortedKeys(services.Keys), services))
  }

  /**
   The engine's reading of one entry: four fields are mandatory, and the default of "role" depends on whether
   all services are loaded (`bulk`) or one.
   */
  function EngineItem(item: Item, bulk: bool): Result<Service> {
    if NameLeaf !in item || PierLeaf !in item || AddressLeaf !in item then Err("No such node")
    else if LocalLeaf !in item then Err("No such node")
    else if ParseBool(item[LocalLeaf]).None? then Err("conversion of data failed")
    else
      var local := ParseBool(item[LocalLeaf]).value;
      var role := if !bulk then ROLE_EITHER else if local then ROLE_SERVER else ROLE_CLIENT;
      Ok(Service(local, item[NameLeaf], item[PierLeaf], item[AddressLeaf],
        Get(item, GatewayLeaf, DEFAULT_IP4_GATEWAY), Get(item, RendezvousLeaf, ""),
        GetInt32(item, ProtoLeaf, PROTO_UDP),
        GetInt32(item, RoleLeaf, role), GetInt32(item, RouteLeaf, ROUTE_DIRECT),
        GetBool(item, AutostartLeaf, false), GetBool(item, ObscureLeaf, true)))
  }

  /** The bulk loader: every entry, in file order; any malformed entry is an exception. */
  function EngineServices(doc: PierDoc): Result<seq<Service>> {
    if doc == [] then Ok([]) else
      var first := EngineItem(doc[0], true);
      var rest := EngineServices(doc[1..]);
      if first.Err? then Err(first.error) else if rest.Err? then Err(rest.error) else Ok([first.value] + rest.value)
  }

  /** The single loader: the first entry with the name, or a default-made service. */
  function EngineService(doc: PierDoc, name: string): Result<Service> {
    if doc == [] then Ok(EMPTY_SERVICE)
    else if NameLeaf !in doc[0] then Err("No such node")
    else if doc[0][NameLeaf] == name then EngineItem(doc[0], false)
    else EngineService(doc[1..], name)
  }

  /** All readers get back the service that was written. */
  lemma ItemRoundTrip(s: Service)
    ensures forall isLocalPier :: ContextItem(ItemOf(s), isLocalPier) == s
    ensures forall bulk :: EngineItem(ItemOf(s), bulk) == Ok(s)
  {
    hide GetInt, ParseBool, BoolText, IntText;
    var item := ItemOf(s);
    BoolRoundTrip(s.local);
    BoolRoundTrip(s.autostart);
    BoolRoundTrip(s.obscure);
    forall default: int32 ensures GetInt32(item, ProtoLeaf, default) == s.proto {
      GetIntOf(item, ProtoLeaf, s.proto, default, -0x8000_0000, 0x8000_0000);
    }
    forall default: int32 ensures GetInt32(item, RoleLeaf, default) == s.role {
      GetIntOf(item, RoleLeaf, s.role, default, -0x8000_0000, 0x8000_0000);
    }
    forall default: int32 ensures GetInt32(item, RouteLeaf, default) == s.route {
      GetIntOf(item, RouteLeaf, s.route, default, -0x8000_0000, 0x8000_0000);
    }
  }

  /** The two engine loaders read an entry alike exactly when it is malformed or says which role to take. */
  lemma EngineLoadersAgree(item: Item)
    ensures EngineItem(item, true) == EngineItem(item, false) <==>
      EngineItem(item, true).Err? || (RoleLeaf in item && ParseInt32(item[RoleLeaf]).Some?)
  {
  }

  /** Where the engine can read an entry, its single loader reads the same service as the context. */
  lemma ReadersAgree(item: Item, isLocalPier: bool)
    requires EngineItem(item, false).Ok?
    ensures EngineItem(item, false).value == ContextItem(item, isLocalPier)
  {
  }

  lemma {:induction false} EngineServicesOf(list: seq<Service>)
    ensures EngineServices(ItemsOf(list)) == Ok(list)
  {
    hide EngineItem, ItemOf;
    if list != [] {
      ItemRoundTrip(list[0]);
      assert ItemsOf(list)[1..] == ItemsOf(list[1..]);
      EngineServicesOf(list[1..]);
      assert EngineItem(ItemsOf(list)[0], true) == Ok(list[0]);
      assert [list[0]] + list[1..] == list;
    }
  }

  lemma {:induction false} EngineServiceOf(list: seq<Service>, name: string)
    ensures var r := EngineService(ItemsOf(list), name);
      && r.Ok?
      && ((exists s :: s in list && s.name == name) ==> r.value in list && r.value.name == name)
      && (!(exists s :: s in list && s.name == name) ==> r.value == EMPTY_SERVICE)
  {
    if list != [] {
      ItemRoundTrip(list[0]);
      assert ItemsOf(list)[1..] == ItemsOf(list[1..]);
      EngineServiceOf(list[1..], name);
    }
  }

  lemma {:induction false} ContextServicesOf(list: seq<Service>, isLocalPier: bool)
    ensures var m := ContextServices(ItemsOf(list), isLocalPier);
      && Keyed(m)
      && (forall s :: s in list ==> s.name in m)
      && (forall name :: name in m ==> m[name] in list)
  {
    if list != [] {
      ItemRoundTrip(list[0]);
      assert ItemsOf(list)[1..] == ItemsOf(list[1..]);
      ContextServicesOf(list[1..], isLocalPier);
    }
  }

  /** What save_pier_config writes, load_pier_config reads back, and the engine's loaders find the same services. */
  lemma SavedDocLoads(services: Services)
    requires Keyed(services)
    ensures forall isLocalPier :: ContextServices(SavedDoc(services), isLocalPier) == services
    ensures EngineServices(SavedDoc(services)) == Ok(ListOf(SortedKeys(services.Keys), services))
    ensures forall name ::
      EngineService(SavedDoc(services), name) == Ok(if name in services then services[name] else EMPTY_SERVICE)
  {
    hide EngineServices, EngineService, ContextServices;
    EngineServicesOf(ListOf(SortedKeys(services.Keys), services));
    forall isLocalPier ensures ContextServices(SavedDoc(services), isLocalPier) == services {
      ContextLoads(services, isLocalPier);
    }
    forall name
      ensures EngineService(SavedDoc(services), name) == Ok(if name in services then services[name] else EMPTY_SERVICE)
    {
      EngineFinds(services, name);
    }
  }

  lemma ContextLoads(services: Services, isLocalPier: bool)
    requires Keyed(services)
    ensures ContextServices(SavedDoc(services), isLocalPier) == services
  {
    hide ContextServices, ContextItem, ItemOf, SortedKeys;
    var list := ListOf(SortedKeys(services.Keys), services);
    ContextServicesOf(list, isLocalPier);
    var m := ContextServices(SavedDoc(services), isLocalPier);
    forall name ensures name in m <==> name in services { ListMembers(services, name); }
    assert m.Keys == services.Keys;
    forall name | name in m ensures m[name] == services[name] { ListedIs(services, m[name]); }
  }

  lemma ListedIs(services: Services, s: Service)
    requires Keyed(services) && s in ListOf(SortedKeys(services.Keys), services)
    ensures s.name in services && services[s.name] == s
  {
    hide SortedKeys;
  }

  lemma EngineFinds(services: Services, name: string)
    requires Keyed(services)
    ensures EngineService(SavedDoc(services), name) == Ok(if name in services then services[name] else EMPTY_SERVICE)
  {
    hide EngineService;
    EngineServiceOf(ListOf(SortedKeys(services.Keys), services), name);
    ListMembers(services, name);
  }

  lemma ListMembers(services: Services, name: string)
    requires Keyed(services)
    ensures var list := ListOf(SortedKeys(services.Keys), services);
      && (name in services <==> exists s :: s in list && s.name == name)
      && (name in services ==> services[name] in list)
  {
    var keys := SortedKeys(services.Keys);
    var list := ListOf(keys, services);
    if name in services {
      var i :| 0 <= i < |keys| && keys[i] == name;
      assert list[i] == services[name];
    }
  }

  // ---------------------------------------------------------------------------------------------------------
  // The configuration file
  // ---------------------------------------------------------------------------------------------------------

  /** context_impl::save_config; dht.network is not written. */
  function ConfigDoc(c: Config): Doc {
    map[PierLeaf := c.pier, RepoLeaf := c.repo, LogFolderLeaf := c.log.folder, LogLevelLeaf := IntText(c.log.level),
        StunUdpLeaf := c.puncher.udpStun, StunTcpLeaf := c.puncher.tcpStun, NatTestLeaf := IntText(c.puncher.test),
        NatHopsLeaf := IntText(c.puncher.hops), BootstrapLeaf := c.dht.bootstrap, DhtPortLeaf := IntText(c.dht.port),
        SmtpLeaf := c.email.smtpServer, ImapLeaf := c.email.imapServer, LoginLeaf := c.email.login,
        PasswordLeaf := c.email.password, EmailCertLeaf := c.email.cert, EmailKeyLeaf := c.email.key,
        EmailCaLeaf := c.email.ca, RelayLeaf := c.relay.server, RelayCertLeaf := c.relay.cert,
        RelayKeyLeaf := c.relay.key, RelayCaLeaf := c.relay.ca]
  }

  function ReadJournal(doc: Doc): Journal {
    Journal(Get(doc, LogFolderLeaf, ""), GetInt32(doc, LogLevelLeaf, LOG_INFO))
  }

  function ReadPuncher(doc: Doc): Puncher {
    Puncher(Get(doc, StunUdpLeaf, Get(doc, StunLeaf, DEFAULT_UDP_STUN)), Get(doc, StunTcpLeaf, DEFAULT_TCP_STUN),
      GetInt32(doc, NatTestLeaf, CHECKUP_STRICT), GetInt(doc, NatHopsLeaf, 7, 0, 0x100))
  }

  function ReadEmailer(doc: Doc): Emailer {
    Emailer(Get(doc, SmtpLeaf, ""), Get(doc, ImapLeaf, ""), Get(doc, LoginLeaf, ""), Get(doc, PasswordLeaf, ""),
      Get(doc, EmailCertLeaf, ""), Get(doc, EmailKeyLeaf, ""), Get(doc, EmailCaLeaf, ""))
  }

  function ReadRelay(doc: Doc): Ricochet {
    Ricochet(Get(doc, RelayLeaf, ""), Get(doc, RelayCertLeaf, ""),
      Get(doc, RelayKeyLeaf, ""), Get(doc, RelayCaLeaf, ""))
  }

  /** The common reading of a configuration; the two readers differ in the default of dht.bootstrap. */
  function ReadConfig(doc: Doc, bootstrap: string): Result<Config> {
    if PierLeaf !in doc || RepoLeaf !in doc then Err("No such node")
    else Ok(Config(doc[PierLeaf], doc[RepoLeaf], ReadJournal(doc), ReadPuncher(doc),
      DhtNode(Get(doc, BootstrapLeaf, bootstrap), GetInt(doc, DhtPortLeaf, DEFAULT_DHT_PORT, 0, 0x1_0000), 0),
      ReadEmailer(doc), ReadRelay(doc)))
  }

  /** context_impl::load_config over freshly constructed defaults. */
  function ContextConfig(doc: Doc): Result<Config> { ReadConfig(doc, DEFAULT_BOOTSTRAP) }

  /** engine::load_config. */
  function EngineConfig(doc: Doc): Result<Config> { ReadConfig(doc, "") }

  function WithoutNetwork(c: Config): Config { c.(dht := c.dht.(network := 0)) }

  /** Context and engine read a configuration alike exactly when it is malformed or names a DHT bootstrap. */
  lemma ConfigReadersAgree(doc: Doc)
    ensures ContextConfig(doc) == EngineConfig(doc) <==> ContextConfig(doc).Err? || BootstrapLeaf in doc
  {
    hide ReadJournal, ReadPuncher, ReadEmailer, ReadRelay, GetInt;
  }

  /** A file that names pier and repository alone gives the constructed configuration, but for the log level. */
  lemma SparseConfig(doc: Doc)
    requires doc.Keys == {PierLeaf, RepoLeaf}
    ensures var sparse := EMPTY_CONFIG.(pier := doc[PierLeaf], repo := doc[RepoLeaf], log := Journal("", LOG_INFO));
      ContextConfig(doc) == Ok(sparse)
  {
    hide ParseInt;
  }

  /** A file without pier or repository is malformed; an old one has a single STUN server, for UDP. */
  lemma OldConfig(doc: Doc)
    ensures ContextConfig(doc).Ok? <==> PierLeaf in doc && RepoLeaf in doc
    ensures ContextConfig(doc).Ok? && StunUdpLeaf !in doc && StunLeaf in doc ==>
      ContextConfig(doc).value.puncher.udpStun == doc[StunLeaf]
  {
    hide ReadJournal, ReadEmailer, ReadRelay, GetInt;
  }

  /** An empty entry gives every field its default; the engine wants name, pier, address and kind. */
  lemma SparseItem(item: Item, isLocalPier: bool, bulk: bool)
    ensures var kind, gateway := isLocalPier, DEFAULT_IP4_GATEWAY;
      var plain := Service(kind, "", "", "", gateway, "", PROTO_UDP, ROLE_EITHER, ROUTE_DIRECT, false, true);
      item == map[] ==> ContextItem(item, isLocalPier) == plain
    ensures EngineItem(item, bulk).Ok? <==>
      item.Keys >= {NameLeaf, PierLeaf, AddressLeaf, LocalLeaf} && ParseBool(item[LocalLeaf]).Some?
  {
    hide ParseInt, ParseBool;
  }

  lemma ConfigNumbers(c: Config)
    ensures var doc := ConfigDoc(c);
      && GetInt32(doc, LogLevelLeaf, LOG_INFO) == c.log.level
      && GetInt32(doc, NatTestLeaf, CHECKUP_STRICT) == c.puncher.test
      && GetInt(doc, NatHopsLeaf, 7, 0, 0x100) == c.puncher.hops
      && GetInt(doc, DhtPortLeaf, DEFAULT_DHT_PORT, 0, 0x1_0000) == c.dht.port
  {
    hide GetInt, IntText;
    var doc := ConfigDoc(c);
    GetIntOf(doc, LogLevelLeaf, c.log.level, LOG_INFO, -0x8000_0000, 0x8000_0000);
    GetIntOf(doc, NatTestLeaf, c.puncher.test, CHECKUP_STRICT, -0x8000_0000, 0x8000_0000);
    GetIntOf(doc, NatHopsLeaf, c.puncher.hops, 7, 0, 0x100);
    GetIntOf(doc, DhtPortLeaf, c.dht.port, DEFAULT_DHT_PORT, 0, 0x1_0000);
  }

  lemma ConfigTexts(c: Config)
    ensures var doc := ConfigDoc(c);
      && doc.Keys >= {PierLeaf, RepoLeaf, LogFolderLeaf, StunUdpLeaf, StunTcpLeaf, BootstrapLeaf}
      && doc[PierLeaf] == c.pier && doc[RepoLeaf] == c.repo && doc[LogFolderLeaf] == c.log.folder
      && doc[StunUdpLeaf] == c.puncher.udpStun && doc[StunTcpLeaf] == c.puncher.tcpStun
      && doc[BootstrapLeaf] == c.dht.bootstrap
  {
    hide IntText;
  }

  lemma ConfigAccounts(c: Config)
    ensures ReadEmailer(ConfigDoc(c)) == c.email && ReadRelay(ConfigDoc(c)) == c.relay
  {
    hide IntText;
  }

  /** A saved configuration is read back by both readers, but for dht.network. */
  lemma ConfigRoundTrip(c: Config)
    ensures ContextConfig(ConfigDoc(c)) == EngineConfig(ConfigDoc(c)) == Ok(WithoutNetwork(c))
  {
    hide GetInt, IntText, ReadEmailer, ReadRelay, ConfigDoc;
    ConfigNumbers(c);
    ConfigTexts(c);
    ConfigAccounts(c);
  }

  // ---------------------------------------------------------------------------------------------------------
  // The disk
  // ---------------------------------------------------------------------------------------------------------

  /** A directory <repo>/<owner>/<pin>: its certificate, whether there is a private key, its services. */
  datatype PierDir = PierDir(cert: Option<string>, key: bool, conf: Option<PierDoc>)

  type Repo = map<string, PierDir>

  /** The home's webpier.json and the repositories by path. A pier directory goes by its id "owner/pin". */
  datatype Disk = Disk(conf: Option<Doc>, repos: map<string, Repo>)

  /** The empty path names no directory. */
  function RepoOf(d: Disk, repo: string): Repo {
    if repo != "" && repo in d.repos then d.repos[repo] else map[]
  }

  function DocOf(dir: PierDir): PierDoc {
    if dir.conf.Some? then dir.conf.value else []
  }
}
