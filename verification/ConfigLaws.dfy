/**
 What a configuration file says, entry by entry: each setting by its record field, each entry by
 the name it has in the file, each bound and default as a number or text.
 */
module ConfigLaws {
  import opened Wrappers
  import opened Platform
  import opened ConfigSpec
  import opened ConfigProperties
  import Json

  type Fields = map<string, Json.Value>

  // ---------- Finding an entry ----------

  function At(fields: Fields, name: string): Option<Json.Value> {
    if name in fields then Some(fields[name]) else None
  }

  /** The entries under "dns_sd"; anything but an object has none. */
  function Dns(fields: Fields): Fields {
    if "dns_sd" in fields && fields["dns_sd"].Object? then fields["dns_sd"].fields else map[]
  }

  lemma TopLevel(fields: Fields, name: string)
    ensures Json.Lookup(Json.Object(fields), [name]) == At(fields, name)
  {
    if name in fields {
      assert [name][1..] == [];
      assert Json.Lookup(fields[name], []) == Some(fields[name]);
    }
  }

  lemma BelowDns(fields: Fields, name: string)
    requires !Json.IsArrayIndex(name)
    ensures Json.Lookup(Json.Object(fields), ["dns_sd", name]) == At(Dns(fields), name)
  {
    assert ["dns_sd", name][1..] == [name];
    assert [name][1..] == [];
    if "dns_sd" in fields {
      assert Json.Lookup(Json.Object(fields), ["dns_sd", name]) == Json.Lookup(fields["dns_sd"], [name]);
      if fields["dns_sd"].Object? { TopLevel(fields["dns_sd"].fields, name); }
    }
  }

  predicate Unset(entry: Option<Json.Value>) {
    match entry case None => true case Some(v) => v.Null?
  }

  // ---------- Numbers ----------

  predicate GoodNumber(entry: Option<Json.Value>, lo: int, hi: int) {
    match entry case Some(Unsigned(n)) => lo <= n <= hi case _ => false
  }

  function Number(entry: Option<Json.Value>, lo: int, hi: int, otherwise: int): int {
    if GoodNumber(entry, lo, hi) then entry.value.u else otherwise
  }

  lemma NumberInDocument(p: Platform, prior: seq<string>, root: Json.Value, k: Key)
    requires WantedKind(k) == Json.UnsignedKind
    ensures var entry := Json.Lookup(root, PointerOf(k));
      && Get(ReadConfig(p, prior, root), k)
         == IntField(Number(entry, LowestOf(k), HighestOf(k), Default(p, k, p.defaultCid).n))
      && (EntryFine(p, root, k) <==> Unset(entry) || GoodNumber(entry, LowestOf(k), HighestOf(k)))
  {
    IntegersAreExact(p, prior, root, k);
  }

  /** The port: 1024 to 65535, or 0 for any. */
  lemma ListenPortInDocument(p: Platform, prior: seq<string>, fields: Fields)
    ensures var root := Json.Object(fields); var entry := At(fields, "listen_port");
      && ReadConfig(p, prior, root).settings.listenPort == Number(entry, 1024, 65535, 0)
      && (EntryFine(p, root, ListenPortKey) <==> Unset(entry) || GoodNumber(entry, 1024, 65535))
  {
    NumberInDocument(p, prior, Json.Object(fields), ListenPortKey);
    TopLevel(fields, "listen_port");
  }

  function Limit(fields: Fields, name: string, otherwise: int): int {
    Number(At(fields, name), 0, 0xffff_ffff, otherwise)
  }

  function LimitsOf(fields: Fields): Limits {
    Limits(
      Limit(fields, "max_connections", 0),
      Limit(fields, "max_controllers", 0),
      Limit(fields, "max_controller_messages", 500),
      Limit(fields, "max_devices", 0),
      Limit(fields, "max_device_messages", 500),
      Limit(fields, "max_reject_connections", 1000))
  }

  lemma ConnectionLimits(p: Platform, prior: seq<string>, fields: Fields)
    ensures var limits := ReadConfig(p, prior, Json.Object(fields)).settings.limits;
      && limits.connections == Limit(fields, "max_connections", 0)
      && limits.rejectConnections == Limit(fields, "max_reject_connections", 1000)
  {
    LimitSetting(p, prior, fields, ConnectionsKey, "max_connections", 0);
    LimitSetting(p, prior, fields, RejectConnectionsKey, "max_reject_connections", 1000);
  }

  lemma ControllerLimits(p: Platform, prior: seq<string>, fields: Fields)
    ensures var limits := ReadConfig(p, prior, Json.Object(fields)).settings.limits;
      && limits.controllers == Limit(fields, "max_controllers", 0)
      && limits.controllerMessages == Limit(fields, "max_controller_messages", 500)
  {
    LimitSetting(p, prior, fields, ControllersKey, "max_controllers", 0);
    LimitSetting(p, prior, fields, ControllerMessagesKey, "max_controller_messages", 500);
  }

  lemma DeviceLimits(p: Platform, prior: seq<string>, fields: Fields)
    ensures var limits := ReadConfig(p, prior, Json.Object(fields)).settings.limits;
      && limits.devices == Limit(fields, "max_devices", 0)
      && limits.deviceMessages == Limit(fields, "max_device_messages", 500)
  {
    LimitSetting(p, prior, fields, DevicesKey, "max_devices", 0);
    LimitSetting(p, prior, fields, DeviceMessagesKey, "max_device_messages", 500);
  }

  /** The six limits, each under its own name. */
  lemma LimitsInDocument(p: Platform, prior: seq<string>, fields: Fields)
    ensures ReadConfig(p, prior, Json.Object(fields)).settings.limits == LimitsOf(fields)
  {
    ConnectionLimits(p, prior, fields);
    ControllerLimits(p, prior, fields);
    DeviceLimits(p, prior, fields);
  }

  lemma LimitSetting(p: Platform, prior: seq<string>, fields: Fields, k: Key, name: string, otherwise: int)
    requires k != ListenPortKey && WantedKind(k) == Json.UnsignedKind && PointerOf(k) == [name]
    requires Default(p, k, p.defaultCid) == IntField(otherwise)
    ensures Get(ReadConfig(p, prior, Json.Object(fields)), k)
         == IntField(Limit(fields, name, otherwise))
  {
    LimitInDocument(p, prior, fields, k, name);
  }

  lemma LimitInDocument(p: Platform, prior: seq<string>, fields: Fields, k: Key, name: string)
    requires k != ListenPortKey && WantedKind(k) == Json.UnsignedKind && PointerOf(k) == [name]
    ensures var root := Json.Object(fields); var entry := At(fields, name);
      && Get(ReadConfig(p, prior, root), k) == IntField(Number(entry, 0, 0xffff_ffff, Default(p, k, p.defaultCid).n))
      && (EntryFine(p, root, k) <==> Unset(entry) || GoodNumber(entry, 0, 0xffff_ffff))
  {
    NumberInDocument(p, prior, Json.Object(fields), k);
    TopLevel(fields, name);
  }

  // ---------- Texts ----------

  /** A text that is not empty, and not too long either unless it may be cut. */
  predicate GoodText(entry: Option<Json.Value>, max: nat, cut: bool) {
    match entry case Some(String(text)) => text != "" && (cut || |text| <= max) case _ => false
  }

  function Text(entry: Option<Json.Value>, max: nat, cut: bool, otherwise: string): string {
    if !GoodText(entry, max, cut) then otherwise
    else if |entry.value.text| <= max then entry.value.text
    else entry.value.text[..max]
  }

  /** A scope that is too long is refused. */
  lemma ScopeInDocument(p: Platform, prior: seq<string>, fields: Fields)
    ensures var root := Json.Object(fields); var entry := At(fields, "scope");
      && ReadConfig(p, prior, root).settings.scope == Text(entry, p.maxScope, false, p.defaultScope)
      && (EntryFine(p, root, ScopeKey) <==> Unset(entry) || GoodText(entry, p.maxScope, false))
  {
    ReadConfigAt(p, prior, Json.Object(fields), ScopeKey);
    TopLevel(fields, "scope");
  }

  /** The names are cut instead. A default service name ends in the CID that is finally in force. */
  lemma ServiceNameInDocument(p: Platform, prior: seq<string>, fields: Fields)
    ensures var root := Json.Object(fields); var entry := At(Dns(fields), "service_instance_name");
      var s := ReadConfig(p, prior, root).settings;
      && s.dns.serviceInstanceName == Text(entry, p.maxServiceName, true, "ETC RDMnet Broker " + p.printUuid(s.cid))
      && (EntryFine(p, root, ServiceNameKey) <==> Unset(entry) || GoodText(entry, p.maxServiceName, true))
  {
    var root := Json.Object(fields);
    ReadConfigAt(p, prior, root, ServiceNameKey);
    BelowDns(fields, "service_instance_name");
    if Given(p, root, ServiceNameKey) == None { DefaultedNameCarriesFinalCid(p, prior, root); }
  }

  lemma ManufacturerInDocument(p: Platform, prior: seq<string>, fields: Fields)
    ensures var root := Json.Object(fields); var entry := At(Dns(fields), "manufacturer");
      && ReadConfig(p, prior, root).settings.dns.manufacturer == Text(entry, p.maxManufacturer, true, "ETC")
      && (EntryFine(p, root, ManufacturerKey) <==> Unset(entry) || GoodText(entry, p.maxManufacturer, true))
  {
    ReadConfigAt(p, prior, Json.Object(fields), ManufacturerKey);
    BelowDns(fields, "manufacturer");
  }

  lemma ModelInDocument(p: Platform, prior: seq<string>, fields: Fields)
    ensures var root := Json.Object(fields); var entry := At(Dns(fields), "model");
      && ReadConfig(p, prior, root).settings.dns.model == Text(entry, p.maxModel, true, "RDMnet Broker Service")
      && (EntryFine(p, root, ModelKey) <==> Unset(entry) || GoodText(entry, p.maxModel, true))
  {
    ReadConfigAt(p, prior, Json.Object(fields), ModelKey);
    BelowDns(fields, "model");
  }

  // ---------- Identifiers ----------

  predicate GoodCid(p: Platform, entry: Option<Json.Value>) {
    match entry case Some(String(text)) => p.parseUuid(text) != 0 case _ => false
  }

  lemma CidInDocument(p: Platform, prior: seq<string>, fields: Fields)
    ensures var root := Json.Object(fields); var entry := At(fields, "cid");
      && ReadConfig(p, prior, root).settings.cid
         == (if GoodCid(p, entry) then p.parseUuid(entry.value.text) else p.defaultCid)
      && (EntryFine(p, root, CidKey) <==> Unset(entry) || GoodCid(p, entry))
  {
    ReadConfigAt(p, prior, Json.Object(fields), CidKey);
    TopLevel(fields, "cid");
  }

  ghost predicate UidAt(entry: Option<Json.Value>, uid: Uid) {
    match entry case Some(Object(members)) => DenotesUid(members, uid) case _ => false
  }

  /** The UID that the "uid" object denotes, or else a dynamic one of ETC's. */
  lemma UidInDocument(p: Platform, prior: seq<string>, fields: Fields, uid: Uid)
    ensures var root := Json.Object(fields); var entry := At(fields, "uid");
      var read := ReadConfig(p, prior, root).settings.uid;
      && (UidAt(entry, uid) ==> read == uid && EntryFine(p, root, UidKey))
      && ((forall u :: !UidAt(entry, u)) ==>
            read == DynamicRequest(0x6574) && (EntryFine(p, root, UidKey) <==> Unset(entry)))
  {
    ReadConfigAt(p, prior, Json.Object(fields), UidKey);
    TopLevel(fields, "uid");
    match At(fields, "uid")
    case Some(Object(members)) =>
      UidIsWhatTheObjectDenotes(members, uid);
      match UidOf(members) {
        case Some(u) =>
          UidIsWhatTheObjectDenotes(members, u);
          assert UidAt(At(fields, "uid"), u);
        case None =>
      }
    case _ =>
  }

  // ---------- The rest ----------

  predicate GoodNames(entry: Option<Json.Value>) {
    match entry
    case Some(Array(items)) => forall i | 0 <= i < |items| :: items[i].String?
    case _ => false
  }

  /** The listed interfaces come after those that were there; a list with anything but names is dropped. */
  lemma ListenInterfacesInDocument(p: Platform, prior: seq<string>, fields: Fields)
    ensures var root := Json.Object(fields); var entry := At(fields, "listen_interfaces");
      var names := ReadConfig(p, prior, root).settings.listenInterfaces;
      && (GoodNames(entry) ==>
            && |names| == |prior| + |entry.value.items| && names[..|prior|] == prior
            && forall i | 0 <= i < |entry.value.items| :: entry.value.items[i] == Json.String(names[|prior| + i]))
      && (!GoodNames(entry) ==> names == [])
      && (EntryFine(p, root, ListenInterfacesKey) <==> Unset(entry) || GoodNames(entry))
  {
    ReadConfigAt(p, prior, Json.Object(fields), ListenInterfacesKey);
    TopLevel(fields, "listen_interfaces");
  }

  predicate GoodLevel(entry: Option<Json.Value>) {
    match entry
    case Some(String(text)) => text in {"debug", "info", "notice", "warning", "err", "crit", "alert", "emerg"}
    case _ => false
  }

  function Level(text: string): LogLevel {
    match text
    case "debug" => Debug
    case "notice" => Notice
    case "warning" => Warning
    case "err" => Err
    case "crit" => Crit
    case "alert" => Alert
    case "emerg" => Emerg
    case _ => Info
  }

  lemma LogLevelInDocument(p: Platform, prior: seq<string>, fields: Fields)
    ensures var root := Json.Object(fields); var entry := At(fields, "log_level");
      && ReadConfig(p, prior, root).logMask == p.logUpTo(if GoodLevel(entry) then Level(entry.value.text) else Info)
      && (EntryFine(p, root, LogLevelKey) <==> Unset(entry) || GoodLevel(entry))
  {
    ReadConfigAt(p, prior, Json.Object(fields), LogLevelKey);
    TopLevel(fields, "log_level");
  }

  lemma EnableBrokerInDocument(p: Platform, prior: seq<string>, fields: Fields)
    ensures var root := Json.Object(fields); var entry := At(fields, "enable_broker");
      && ReadConfig(p, prior, root).enableBroker == (entry != Some(Json.Boolean(false)))
      && (EntryFine(p, root, EnableBrokerKey) <==> Unset(entry) || entry.value.Boolean?)
  {
    ReadConfigAt(p, prior, Json.Object(fields), EnableBrokerKey);
    TopLevel(fields, "enable_broker");
  }

  // ---------- The verdict, the defaults, the file ----------

  predicate LimitFine(fields: Fields, name: string) {
    Unset(At(fields, name)) || GoodNumber(At(fields, name), 0, 0xffff_ffff)
  }

  predicate NumbersFine(fields: Fields) {
    && (Unset(At(fields, "listen_port")) || GoodNumber(At(fields, "listen_port"), 1024, 65535))
    && LimitFine(fields, "max_connections") && LimitFine(fields, "max_controllers")
    && LimitFine(fields, "max_controller_messages") && LimitFine(fields, "max_devices")
    && LimitFine(fields, "max_device_messages") && LimitFine(fields, "max_reject_connections")
  }

  predicate TextFine(entry: Option<Json.Value>, max: nat, cut: bool) {
    Unset(entry) || GoodText(entry, max, cut)
  }

  predicate TextsFine(p: Platform, fields: Fields) {
    && TextFine(At(fields, "scope"), p.maxScope, false)
    && TextFine(At(Dns(fields), "service_instance_name"), p.maxServiceName, true)
    && TextFine(At(Dns(fields), "manufacturer"), p.maxManufacturer, true)
    && TextFine(At(Dns(fields), "model"), p.maxModel, true)
  }

  ghost predicate OthersFine(p: Platform, fields: Fields) {
    && (Unset(At(fields, "cid")) || GoodCid(p, At(fields, "cid")))
    && (Unset(At(fields, "uid")) || exists u :: UidAt(At(fields, "uid"), u))
    && (Unset(At(fields, "listen_interfaces")) || GoodNames(At(fields, "listen_interfaces")))
    && (Unset(At(fields, "log_level")) || GoodLevel(At(fields, "log_level")))
    && (Unset(At(fields, "enable_broker")) || At(fields, "enable_broker").value.Boolean?)
  }

  const NUMBERS := {
    ListenPortKey, ConnectionsKey, ControllersKey, ControllerMessagesKey,
    DevicesKey, DeviceMessagesKey, RejectConnectionsKey}
  const TEXTS := {ScopeKey, ServiceNameKey, ManufacturerKey, ModelKey}
  const OTHERS := {CidKey, UidKey, ListenInterfacesKey, LogLevelKey, EnableBrokerKey}

  ghost predicate AllFine(p: Platform, root: Json.Value, keys: set<Key>) {
    forall k | k in keys :: EntryFine(p, root, k)
  }

  lemma EveryKey(k: Key)
    ensures k in NUMBERS || k in TEXTS || k in OTHERS
  {
  }

  lemma NumbersVerdict(p: Platform, fields: Fields)
    ensures NumbersFine(fields) <==> AllFine(p, Json.Object(fields), NUMBERS)
  {
    ListenPortInDocument(p, [], fields);
    LimitVerdict(p, fields, ConnectionsKey, "max_connections");
    LimitVerdict(p, fields, ControllersKey, "max_controllers");
    LimitVerdict(p, fields, ControllerMessagesKey, "max_controller_messages");
    LimitVerdict(p, fields, DevicesKey, "max_devices");
    LimitVerdict(p, fields, DeviceMessagesKey, "max_device_messages");
    LimitVerdict(p, fields, RejectConnectionsKey, "max_reject_connections");
  }

  lemma LimitVerdict(p: Platform, fields: Fields, k: Key, name: string)
    requires k in NUMBERS && k != ListenPortKey && PointerOf(k) == [name]
    ensures LimitFine(fields, name) <==> EntryFine(p, Json.Object(fields), k)
  {
    LimitInDocument(p, [], fields, k, name);
  }

  lemma TextsVerdict(p: Platform, fields: Fields)
    ensures TextsFine(p, fields) <==> AllFine(p, Json.Object(fields), TEXTS)
  {
    ScopeInDocument(p, [], fields);
    ServiceNameInDocument(p, [], fields);
    ManufacturerInDocument(p, [], fields);
    ModelInDocument(p, [], fields);
  }

  lemma OthersVerdict(p: Platform, fields: Fields)
    ensures OthersFine(p, fields) <==> AllFine(p, Json.Object(fields), OTHERS)
  {
    CidInDocument(p, [], fields);
    ListenInterfacesInDocument(p, [], fields);
    LogLevelInDocument(p, [], fields);
    EnableBrokerInDocument(p, [], fields);
    if u :| UidAt(At(fields, "uid"), u) {
      UidInDocument(p, [], fields, u);
    } else {
      UidInDocument(p, [], fields, DynamicRequest(0));
    }
  }

  lemma AllKeysFine(p: Platform, root: Json.Value)
    ensures (forall k :: EntryFine(p, root, k))
      <==> AllFine(p, root, NUMBERS) && AllFine(p, root, TEXTS) && AllFine(p, root, OTHERS)
  {
    if AllFine(p, root, NUMBERS) && AllFine(p, root, TEXTS) && AllFine(p, root, OTHERS) {
      forall k ensures EntryFine(p, root, k) { EveryKey(k); }
    }
  }

  /** A document raises no complaint exactly when each of its sixteen entries is unset or good. */
  lemma VerdictOnDocument(p: Platform, fields: Fields)
    ensures (forall k :: EntryFine(p, Json.Object(fields), k))
      <==> NumbersFine(fields) && TextsFine(p, fields) && OthersFine(p, fields)
  {
    NumbersVerdict(p, fields);
    TextsVerdict(p, fields);
    OthersVerdict(p, fields);
    AllKeysFine(p, Json.Object(fields));
  }

  /** The defaults, in full. */
  lemma DefaultsInFull(p: Platform)
    ensures DefaultConfig(p) == Config(
      Settings(
        p.defaultCid, DynamicRequest(0x6574),
        ConfigSpec.Dns("ETC RDMnet Broker " + p.printUuid(p.defaultCid), "ETC", "RDMnet Broker Service"),
        p.defaultScope, 0, [], Limits(0, 0, 500, 0, 500, 1000)),
      p.logUpTo(Info), true)
  {
    var c := Config(
      Settings(
        p.defaultCid, DynamicRequest(0x6574),
        ConfigSpec.Dns("ETC RDMnet Broker " + p.printUuid(p.defaultCid), "ETC", "RDMnet Broker Service"),
        p.defaultScope, 0, [], Limits(0, 0, 500, 0, 500, 1000)),
      p.logUpTo(Info), true);
    forall k ensures Get(DefaultConfig(p), k) == Get(c, k) { DefaultConfigAt(p, k); }
    SameFieldsSameConfig(DefaultConfig(p), c);
  }

  /** A file that is missing, is no JSON or has no object at its root gives the defaults, and no broker. */
  lemma LoadInFull(p: Platform, text: string)
    ensures LoadedConfig(p, Unopened) == DefaultConfig(p).(enableBroker := false)
    ensures LoadedConfig(p, Opened(text)) ==
      match p.parseJson(text)
      case Some(Object(fields)) => ReadConfig(p, [], Json.Object(fields))
      case _ => DefaultConfig(p).(enableBroker := false)
  {
  }
}
