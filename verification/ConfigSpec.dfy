/**
 What a configuration file means, field by field: the reference the table-driven validator
 is proved against. Nothing here loops over the table or keeps state.
 */
module ConfigSpec {
  import opened Wrappers
  import opened Platform
  import Json

  // ---------- Settings ----------

  datatype Uid = Static(manufacturer: int, device: int) | DynamicRequest(manufacturer: int)

  datatype Dns = Dns(serviceInstanceName: string, manufacturer: string, model: string)

  datatype Limits = Limits(
    connections: int, controllers: int, controllerMessages: int,
    devices: int, deviceMessages: int, rejectConnections: int)

  datatype Settings = Settings(
    cid: Uuid, uid: Uid, dns: Dns, scope: string,
    listenPort: int, listenInterfaces: seq<string>, limits: Limits)

  datatype Config = Config(settings: Settings, logMask: int, enableBroker: bool)

  datatype ParseResult = JsonParseErr | InvalidSetting | Ok

  // ---------- The settings table ----------

  /** One key per entry of the settings table. */
  datatype Key =
    | CidKey | UidKey | ServiceNameKey | ManufacturerKey | ModelKey | ScopeKey
    | ListenPortKey | ListenInterfacesKey | LogLevelKey
    | ConnectionsKey | ControllersKey | ControllerMessagesKey
    | DevicesKey | DeviceMessagesKey | RejectConnectionsKey | EnableBrokerKey

  /** The order in which the table is processed. */
  const ORDER: seq<Key> := [
    CidKey, UidKey, ServiceNameKey, ManufacturerKey, ModelKey, ScopeKey,
    ListenPortKey, ListenInterfacesKey, LogLevelKey,
    ConnectionsKey, ControllersKey, ControllerMessagesKey,
    DevicesKey, DeviceMessagesKey, RejectConnectionsKey, EnableBrokerKey]

  function Position(k: Key): (i: nat)
    ensures i < |ORDER| && ORDER[i] == k
  {
    match k
    case CidKey => 0
    case UidKey => 1
    case ServiceNameKey => 2
    case ManufacturerKey => 3
    case ModelKey => 4
    case ScopeKey => 5
    case ListenPortKey => 6
    case ListenInterfacesKey => 7
    case LogLevelKey => 8
    case ConnectionsKey => 9
    case ControllersKey => 10
    case ControllerMessagesKey => 11
    case DevicesKey => 12
    case DeviceMessagesKey => 13
    case RejectConnectionsKey => 14
    case EnableBrokerKey => 15
  }

  lemma PositionOfEntry(i: nat)
    requires i < |ORDER|
    ensures Position(ORDER[i]) == i
  {
    var k := ORDER[i];
    assert forall j | 0 <= j < |ORDER| && ORDER[j] == k :: j == Position(k);
  }

  function PointerOf(k: Key): Json.Pointer {
    match k
    case CidKey => ["cid"]
    case UidKey => ["uid"]
    case ServiceNameKey => ["dns_sd", "service_instance_name"]
    case ManufacturerKey => ["dns_sd", "manufacturer"]
    case ModelKey => ["dns_sd", "model"]
    case ScopeKey => ["scope"]
    case ListenPortKey => ["listen_port"]
    case ListenInterfacesKey => ["listen_interfaces"]
    case LogLevelKey => ["log_level"]
    case ConnectionsKey => ["max_connections"]
    case ControllersKey => ["max_controllers"]
    case ControllerMessagesKey => ["max_controller_messages"]
    case DevicesKey => ["max_devices"]
    case DeviceMessagesKey => ["max_device_messages"]
    case RejectConnectionsKey => ["max_reject_connections"]
    case EnableBrokerKey => ["enable_broker"]
  }

  function WantedKind(k: Key): Json.Kind {
    match k
    case CidKey | ServiceNameKey | ManufacturerKey | ModelKey | ScopeKey | LogLevelKey => Json.StringKind
    case UidKey => Json.ObjectKind
    case ListenInterfacesKey => Json.ArrayKind
    case EnableBrokerKey => Json.BooleanKind
    case _ => Json.UnsignedKind
  }

  // ---------- One setting, seen as a value ----------

  datatype Field =
    | UuidField(uuid: Uuid)
    | UidField(uid: Uid)
    | TextField(text: string)
    | IntField(n: int)
    | NamesField(names: seq<string>)
    | FlagField(flag: bool)

  predicate Fits(k: Key, f: Field) {
    match k
    case CidKey => f.UuidField?
    case UidKey => f.UidField?
    case ServiceNameKey | ManufacturerKey | ModelKey | ScopeKey => f.TextField?
    case ListenInterfacesKey => f.NamesField?
    case EnableBrokerKey => f.FlagField?
    case _ => f.IntField?
  }

  function Get(c: Config, k: Key): Field {
    match k
    case CidKey => UuidField(c.settings.cid)
    case UidKey => UidField(c.settings.uid)
    case ServiceNameKey => TextField(c.settings.dns.serviceInstanceName)
    case ManufacturerKey => TextField(c.settings.dns.manufacturer)
    case ModelKey => TextField(c.settings.dns.model)
    case ScopeKey => TextField(c.settings.scope)
    case ListenPortKey => IntField(c.settings.listenPort)
    case ListenInterfacesKey => NamesField(c.settings.listenInterfaces)
    case LogLevelKey => IntField(c.logMask)
    case ConnectionsKey => IntField(c.settings.limits.connections)
    case ControllersKey => IntField(c.settings.limits.controllers)
    case ControllerMessagesKey => IntField(c.settings.limits.controllerMessages)
    case DevicesKey => IntField(c.settings.limits.devices)
    case DeviceMessagesKey => IntField(c.settings.limits.deviceMessages)
    case RejectConnectionsKey => IntField(c.settings.limits.rejectConnections)
    case EnableBrokerKey => FlagField(c.enableBroker)
  }

  lemma SameDns(a: Config, b: Config)
    requires Get(a, ServiceNameKey) == Get(b, ServiceNameKey)
    requires Get(a, ManufacturerKey) == Get(b, ManufacturerKey)
    requires Get(a, ModelKey) == Get(b, ModelKey)
    ensures a.settings.dns == b.settings.dns
  {
  }

  lemma SameLimits(a: Config, b: Config)
    requires Get(a, ConnectionsKey) == Get(b, ConnectionsKey)
    requires Get(a, ControllersKey) == Get(b, ControllersKey)
    requires Get(a, ControllerMessagesKey) == Get(b, ControllerMessagesKey)
    requires Get(a, DevicesKey) == Get(b, DevicesKey)
    requires Get(a, DeviceMessagesKey) == Get(b, DeviceMessagesKey)
    requires Get(a, RejectConnectionsKey) == Get(b, RejectConnectionsKey)
    ensures a.settings.limits == b.settings.limits
  {
  }

  lemma SameFieldsSameConfig(a: Config, b: Config)
    requires forall k :: Get(a, k) == Get(b, k)
    ensures a == b
  {
    SameDns(a, b);
    SameLimits(a, b);
    assert Get(a, CidKey) == Get(b, CidKey);
    assert Get(a, UidKey) == Get(b, UidKey);
    assert Get(a, ScopeKey) == Get(b, ScopeKey);
    assert Get(a, ListenPortKey) == Get(b, ListenPortKey);
    assert Get(a, ListenInterfacesKey) == Get(b, ListenInterfacesKey);
    assert Get(a, LogLevelKey) == Get(b, LogLevelKey);
    assert Get(a, EnableBrokerKey) == Get(b, EnableBrokerKey);
  }

  // ---------- What each entry accepts ----------

  const MAX_UINT := 0xFFFF_FFFF
  const MIN_PORT := 1024
  const MAX_PORT := 65535
  const MAX_MANUFACTURER_ID := 0x7FFF
  const ETC_MANUFACTURER_ID := 0x6574

  function IntIn(n: int, lo: int, hi: int): Option<Field> {
    if lo <= n <= hi then Some(IntField(n)) else None
  }

  function TextOf(s: string, maxSize: nat, truncationAllowed: bool): Option<string> {
    if s == "" then None
    else if |s| <= maxSize then Some(s)
    else if truncationAllowed then Some(s[..maxSize])
    else None
  }

  function NamesOf(items: seq<Json.Value>): Option<seq<string>> {
    if forall i | 0 <= i < |items| :: items[i].String?
    then Some(seq(|items|, i requires 0 <= i < |items| && items[i].String? => items[i].text))
    else None
  }

  function IntegerAt(fields: map<string, Json.Value>, key: string, lo: int, hi: int): Option<int> {
    if key in fields && fields[key].IsInteger() && lo <= fields[key].Mathematical() <= hi
    then Some(fields[key].Mathematical())
    else None
  }

  /** The "uid" object: "device_id" is required when static and forbidden when dynamic. */
  function UidOf(fields: map<string, Json.Value>): Option<Uid> {
    var manufacturer := IntegerAt(fields, "manufacturer_id", 1, MAX_MANUFACTURER_ID);
    var device := IntegerAt(fields, "device_id", 0, MAX_UINT);
    if "type" !in fields || manufacturer == None then None
    else if fields["type"] == Json.String("static") && device.Some? then
      Some(Static(manufacturer.value, device.value))
    else if fields["type"] == Json.String("dynamic") && "device_id" !in fields then
      Some(DynamicRequest(manufacturer.value))
    else None
  }

  function LevelNamed(s: string): Option<LogLevel> {
    if s == "debug" then Some(Debug)
    else if s == "info" then Some(Info)
    else if s == "notice" then Some(Notice)
    else if s == "warning" then Some(Warning)
    else if s == "err" then Some(Err)
    else if s == "crit" then Some(Crit)
    else if s == "alert" then Some(Alert)
    else if s == "emerg" then Some(Emerg)
    else None
  }

  function TextFieldOf(t: Option<string>): Option<Field> {
    match t case None => None case Some(s) => Some(TextField(s))
  }

  /** The setting a value of the wanted kind stands for, if the entry accepts it. */
  function Parsed(p: Platform, k: Key, v: Json.Value): (r: Option<Field>)
    requires Json.KindOf(v) == WantedKind(k)
    ensures r.Some? ==> Fits(k, r.value)
  {
    match k
    case CidKey =>
      if p.parseUuid(v.text) == NULL_UUID then None else Some(UuidField(p.parseUuid(v.text)))
    case UidKey =>
      (match UidOf(v.fields) case None => None case Some(u) => Some(UidField(u)))
    case ServiceNameKey => TextFieldOf(TextOf(v.text, p.maxServiceName, true))
    case ManufacturerKey => TextFieldOf(TextOf(v.text, p.maxManufacturer, true))
    case ModelKey => TextFieldOf(TextOf(v.text, p.maxModel, true))
    case ScopeKey => TextFieldOf(TextOf(v.text, p.maxScope, false))
    case ListenPortKey => IntIn(v.Mathematical(), MIN_PORT, MAX_PORT)
    case ListenInterfacesKey =>
      (match NamesOf(v.items) case None => None case Some(names) => Some(NamesField(names)))
    case LogLevelKey =>
      (match LevelNamed(v.text) case None => None case Some(level) => Some(IntField(p.logUpTo(level))))
    case EnableBrokerKey => Some(FlagField(v.flag))
    case _ => IntIn(v.Mathematical(), 0, MAX_UINT)
  }

  /** The default of an entry; only the service name's depends on another setting, the CID. */
  function Default(p: Platform, k: Key, cid: Uuid): (f: Field)
    ensures Fits(k, f)
  {
    match k
    case CidKey => UuidField(p.defaultCid)
    case UidKey => UidField(DynamicRequest(ETC_MANUFACTURER_ID))
    case ServiceNameKey => TextField(SERVICE_NAME_PREFIX + p.printUuid(cid))
    case ManufacturerKey => TextField(DEFAULT_MANUFACTURER)
    case ModelKey => TextField(DEFAULT_MODEL)
    case ScopeKey => TextField(p.defaultScope)
    case ListenPortKey => IntField(0)
    case ListenInterfacesKey => NamesField([])
    case LogLevelKey => IntField(p.logUpTo(Info))
    case ConnectionsKey => IntField(0)
    case ControllersKey => IntField(0)
    case ControllerMessagesKey => IntField(500)
    case DevicesKey => IntField(0)
    case DeviceMessagesKey => IntField(500)
    case RejectConnectionsKey => IntField(1000)
    case EnableBrokerKey => FlagField(true)
  }

  // ---------- What a whole document means ----------

  /** The setting a document gives explicitly, if it does so acceptably. */
  function Given(p: Platform, root: Json.Value, k: Key): (r: Option<Field>)
    ensures r.Some? ==> Fits(k, r.value)
  {
    match Json.Lookup(root, PointerOf(k))
    case None => None
    case Some(v) => if Json.KindOf(v) == WantedKind(k) then Parsed(p, k, v) else None
  }

  /** An entry raises no complaint: absent, null, or accepted. */
  predicate EntryFine(p: Platform, root: Json.Value, k: Key) {
    match Json.Lookup(root, PointerOf(k))
    case None => true
    case Some(v) => v.Null? || (Json.KindOf(v) == WantedKind(k) && Parsed(p, k, v).Some?)
  }

  function CidOf(p: Platform, root: Json.Value): Uuid {
    match Given(p, root, CidKey)
    case Some(UuidField(u)) => u
    case _ => p.defaultCid
  }

  /** An accepted interface list is appended to what was there before. */
  function Merged(prior: seq<string>, k: Key, f: Field): Field {
    if k == ListenInterfacesKey && f.NamesField? then NamesField(prior + f.names) else f
  }

  /** What an entry stores when the interface list was `prior` and the CID in force is `cid`. */
  function EntryResult(p: Platform, prior: seq<string>, cid: Uuid, root: Json.Value, k: Key): (f: Field)
    ensures Fits(k, f)
  {
    match Given(p, root, k)
    case Some(f) => Merged(prior, k, f)
    case None => Default(p, k, cid)
  }

  lemma EntryResultDependencies(p: Platform, root: Json.Value, k: Key,
                                prior: seq<string>, cid: Uuid, prior': seq<string>, cid': Uuid)
    requires k == ListenInterfacesKey ==> prior == prior'
    requires k == ServiceNameKey && Given(p, root, k) == None ==> cid == cid'
    ensures EntryResult(p, prior, cid, root, k) == EntryResult(p, prior', cid', root, k)
  {
  }

  /** The setting a document gives: its own value or its default, with the final CID in force. */
  function Expected(p: Platform, prior: seq<string>, root: Json.Value, k: Key): (f: Field)
    ensures Fits(k, f)
  {
    EntryResult(p, prior, CidOf(p, root), root, k)
  }

  lemma ExpectedCid(p: Platform, prior: seq<string>, root: Json.Value)
    ensures Expected(p, prior, root, CidKey) == UuidField(CidOf(p, root))
  {
  }

  // ---------- Progress through the table ----------

  /** The first `i` entries hold what the document means, the rest what they held at the start. */
  ghost predicate Processed(p: Platform, root: Json.Value, start: Config, c: Config, i: nat) {
    && (forall k :: Position(k) < i ==> Get(c, k) == Expected(p, start.settings.listenInterfaces, root, k))
    && (forall k :: i <= Position(k) ==> Get(c, k) == Get(start, k))
  }

  ghost predicate FineUpTo(p: Platform, root: Json.Value, i: nat) {
    forall k :: Position(k) < i ==> EntryFine(p, root, k)
  }

  /**
   The table order is what makes the service name's default come out right: when entry `i`
   has its turn, the CID above it is final and the interface list, if still to come, untouched.
   */
  lemma EntryInTurn(p: Platform, root: Json.Value, start: Config, c: Config, i: nat)
    requires i < |ORDER| && Processed(p, root, start, c, i)
    ensures EntryResult(p, c.settings.listenInterfaces, c.settings.cid, root, ORDER[i])
            == Expected(p, start.settings.listenInterfaces, root, ORDER[i])
  {
    var prior, cid := start.settings.listenInterfaces, CidOf(p, root);
    PositionOfEntry(i);
    if ORDER[i] == ServiceNameKey {
      ExpectedCid(p, prior, root);
      assert Get(c, CidKey) == Expected(p, prior, root, CidKey);
    }
    if ORDER[i] == ListenInterfacesKey {
      assert Get(c, ListenInterfacesKey) == Get(start, ListenInterfacesKey);
    }
    EntryResultDependencies(p, root, ORDER[i], c.settings.listenInterfaces, c.settings.cid, prior, cid);
  }

  lemma ProcessOneMore(p: Platform, root: Json.Value, start: Config, c: Config, c': Config, i: nat)
    requires i < |ORDER| && Processed(p, root, start, c, i)
    requires Get(c', ORDER[i]) == EntryResult(p, c.settings.listenInterfaces, c.settings.cid, root, ORDER[i])
    requires forall k :: k != ORDER[i] ==> Get(c', k) == Get(c, k)
    ensures Processed(p, root, start, c', i + 1)
    ensures FineUpTo(p, root, i + 1) <==> FineUpTo(p, root, i) && EntryFine(p, root, ORDER[i])
  {
    PositionOfEntry(i);
    EntryInTurn(p, root, start, c, i);
  }

  /** The configuration made of the given settings. */
  function FromFields(f: Key -> Field): (c: Config)
    requires forall k :: Fits(k, f(k))
  {
    assert Fits(CidKey, f(CidKey)) && Fits(UidKey, f(UidKey)) && Fits(ServiceNameKey, f(ServiceNameKey));
    assert Fits(ManufacturerKey, f(ManufacturerKey)) && Fits(ModelKey, f(ModelKey)) && Fits(ScopeKey, f(ScopeKey));
    assert Fits(ListenPortKey, f(ListenPortKey)) && Fits(ListenInterfacesKey, f(ListenInterfacesKey));
    assert Fits(LogLevelKey, f(LogLevelKey)) && Fits(EnableBrokerKey, f(EnableBrokerKey));
    assert Fits(ConnectionsKey, f(ConnectionsKey)) && Fits(ControllersKey, f(ControllersKey));
    assert Fits(ControllerMessagesKey, f(ControllerMessagesKey)) && Fits(DevicesKey, f(DevicesKey));
    assert Fits(DeviceMessagesKey, f(DeviceMessagesKey)) && Fits(RejectConnectionsKey, f(RejectConnectionsKey));
    Config(
      Settings(
        f(CidKey).uuid, f(UidKey).uid,
        Dns(f(ServiceNameKey).text, f(ManufacturerKey).text, f(ModelKey).text),
        f(ScopeKey).text, f(ListenPortKey).n, f(ListenInterfacesKey).names,
        Limits(f(ConnectionsKey).n, f(ControllersKey).n, f(ControllerMessagesKey).n,
               f(DevicesKey).n, f(DeviceMessagesKey).n, f(RejectConnectionsKey).n)),
      f(LogLevelKey).n, f(EnableBrokerKey).flag)
  }

  ghost predicate HasFields(c: Config, f: Key -> Field) {
    forall k :: Get(c, k) == f(k)
  }

  lemma FieldsMakeConfig(f: Key -> Field)
    requires forall k :: Fits(k, f(k))
    ensures exists c :: HasFields(c, f)
  {
    var c := FromFields(f);
    forall k ensures Get(c, k) == f(k) { assert Fits(k, f(k)); }
    assert HasFields(c, f);
  }

  /** What reading a document leaves in settings whose interface list was `prior`. */
  ghost function ReadConfig(p: Platform, prior: seq<string>, root: Json.Value): Config {
    var f := k => Expected(p, prior, root, k);
    FieldsMakeConfig(f);
    var c :| HasFields(c, f);
    c
  }

  lemma ReadConfigAt(p: Platform, prior: seq<string>, root: Json.Value, k: Key)
    ensures Get(ReadConfig(p, prior, root), k) == Expected(p, prior, root, k)
  {
  }

  ghost function DefaultConfig(p: Platform): Config {
    var f := k => Default(p, k, p.defaultCid);
    FieldsMakeConfig(f);
    var c :| HasFields(c, f);
    c
  }

  lemma DefaultConfigAt(p: Platform, k: Key)
    ensures Get(DefaultConfig(p), k) == Default(p, k, p.defaultCid)
  {
  }

  /** The first `i` entries hold their defaults. */
  ghost predicate DefaultedUpTo(p: Platform, c: Config, i: nat) {
    forall k :: Position(k) < i ==> Get(c, k) == Default(p, k, p.defaultCid)
  }

  lemma DefaultOneMore(p: Platform, c: Config, c': Config, i: nat)
    requires i < |ORDER| && DefaultedUpTo(p, c, i)
    requires Get(c', ORDER[i]) == Default(p, ORDER[i], c.settings.cid)
    requires forall k :: k != ORDER[i] ==> Get(c', k) == Get(c, k)
    ensures DefaultedUpTo(p, c', i + 1)
  {
    PositionOfEntry(i);
    if ORDER[i] == ServiceNameKey {
      assert Get(c, CidKey) == Default(p, CidKey, p.defaultCid);
    }
  }

  lemma AllDefaulted(p: Platform, c: Config)
    requires DefaultedUpTo(p, c, |ORDER|)
    ensures c == DefaultConfig(p)
  {
    forall k ensures Get(c, k) == Get(DefaultConfig(p), k) { DefaultConfigAt(p, k); }
    SameFieldsSameConfig(c, DefaultConfig(p));
  }

  lemma AllProcessed(p: Platform, root: Json.Value, start: Config, c: Config)
    requires Processed(p, root, start, c, |ORDER|)
    ensures c == ReadConfig(p, start.settings.listenInterfaces, root)
  {
    var read := ReadConfig(p, start.settings.listenInterfaces, root);
    forall k ensures Get(c, k) == Get(read, k) { ReadConfigAt(p, start.settings.listenInterfaces, root, k); }
    SameFieldsSameConfig(c, read);
  }

  const EMPTY_DOCUMENT := Json.Object(map[])

  lemma EmptyDocumentGivesNothing(k: Key)
    ensures Json.Lookup(EMPTY_DOCUMENT, PointerOf(k)) == None
  {
  }

  // ---------- The configuration file ----------

  datatype ConfFile = Unopened | Opened(text: string)

  /** The document of a file that opened and parsed to an object. */
  function Document(p: Platform, file: ConfFile): Option<Json.Value> {
    match file
    case Unopened => None
    case Opened(text) =>
      match p.parseJson(text)
      case Some(root) => if root.Object? then Some(root) else None
      case None => None
  }

  /** What a load from this file gives, whatever was loaded before. */
  ghost function LoadedConfig(p: Platform, file: ConfFile): Config {
    match Document(p, file)
    case Some(root) => ReadConfig(p, [], root)
    case None => DefaultConfig(p).(enableBroker := false)
  }
}
