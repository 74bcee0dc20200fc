/**
 What holds of every configuration the reader can produce: well-formedness, exact integers,
 independence of the settings from each other and from history, and the round trip through
 a canonical document.
 */
module ConfigProperties {
  import opened Wrappers
  import opened Platform
  import opened ConfigSpec
  import Json

  // ---------- Dependence on earlier state ----------

  /** Reading twice differs from reading once in the interface list alone. */
  lemma ReadDependsOnPriorInterfacesOnly(p: Platform, prior: seq<string>, root: Json.Value)
    ensures var once, again := ReadConfig(p, [], root), ReadConfig(p, prior, root);
      again == once.(settings := once.settings.(listenInterfaces :=
        match Given(p, root, ListenInterfacesKey)
        case Some(f) => prior + f.names
        case None => []))
  {
    var once, again := ReadConfig(p, [], root), ReadConfig(p, prior, root);
    var names := Expected(p, prior, root, ListenInterfacesKey).names;
    var merged := once.(settings := once.settings.(listenInterfaces := names));
    forall k ensures Get(again, k) == Get(merged, k) {
      if k == ListenInterfacesKey {
        ReadConfigAt(p, prior, root, k);
      } else {
        ReadElsewhere(p, prior, root, k);
        OnlyInterfacesDiffer(once, names, k);
      }
    }
    SameFieldsSameConfig(again, merged);
  }

  lemma ReadElsewhere(p: Platform, prior: seq<string>, root: Json.Value, k: Key)
    requires k != ListenInterfacesKey
    ensures Get(ReadConfig(p, prior, root), k) == Get(ReadConfig(p, [], root), k)
  {
    EntryResultDependencies(p, root, k, prior, CidOf(p, root), [], CidOf(p, root));
    ReadConfigAt(p, prior, root, k);
    ReadConfigAt(p, [], root, k);
  }

  lemma OnlyInterfacesDiffer(c: Config, names: seq<string>, k: Key)
    requires k != ListenInterfacesKey
    ensures Get(c.(settings := c.settings.(listenInterfaces := names)), k) == Get(c, k)
  {
  }

  lemma EnabledByDocument(p: Platform, prior: seq<string>, root: Json.Value)
    ensures Expected(p, prior, root, EnableBrokerKey)
            == FlagField(Json.Lookup(root, PointerOf(EnableBrokerKey)) != Some(Json.Boolean(false)))
  {
  }

  /** The broker runs unless the file is unusable or says literally `false`. */
  lemma BrokerEnabledExactlyWhen(p: Platform, file: ConfFile)
    ensures LoadedConfig(p, file).enableBroker <==>
      match Document(p, file)
      case Some(root) => Json.Lookup(root, PointerOf(EnableBrokerKey)) != Some(Json.Boolean(false))
      case None => false
  {
    match Document(p, file)
    case None =>
    case Some(root) =>
      EnabledByDocument(p, [], root);
      ReadConfigAt(p, [], root, EnableBrokerKey);
  }

  /** A service name that falls back to its default carries the CID that was finally chosen. */
  lemma DefaultedNameCarriesFinalCid(p: Platform, prior: seq<string>, root: Json.Value)
    requires Given(p, root, ServiceNameKey) == None
    ensures var s := ReadConfig(p, prior, root).settings;
      s.dns.serviceInstanceName == SERVICE_NAME_PREFIX + p.printUuid(s.cid)
  {
    var c := ReadConfig(p, prior, root);
    ExpectedCid(p, prior, root);
    ReadConfigAt(p, prior, root, CidKey);
    ReadConfigAt(p, prior, root, ServiceNameKey);
  }

  // ---------- Integers and UIDs ----------

  function LowestOf(k: Key): int {
    if k == ListenPortKey then MIN_PORT else 0
  }

  function HighestOf(k: Key): int {
    if k == ListenPortKey then MAX_PORT else MAX_UINT
  }

  /** How many values the variable has that the setting is narrowed to. */
  function WidthOf(k: Key): int {
    if k == ListenPortKey then 0x1_0000 else 0x1_0000_0000
  }

  predicate HasUnsigned(root: Json.Value, k: Key) {
    match Json.Lookup(root, PointerOf(k)) case Some(v) => v.Unsigned? case None => false
  }

  /**
   Over all documents and all 64-bit integers: an integer setting ends as the number in the
   document exactly when that is unsigned and in range, and as its default otherwise. Testing
   and narrowing the wrapped 64-bit value, as the code does, comes to the same.
   */
  lemma IntegersAreExact(p: Platform, prior: seq<string>, root: Json.Value, k: Key)
    requires WantedKind(k) == Json.UnsignedKind
    ensures var setting := Get(ReadConfig(p, prior, root), k);
      if HasUnsigned(root, k) then
        var v := Json.Lookup(root, PointerOf(k)).value;
        var (n, wrapped) := (v.Mathematical(), v.ToInt64());
        && (LowestOf(k) <= n <= HighestOf(k) <==> LowestOf(k) <= wrapped <= HighestOf(k))
        && (LowestOf(k) <= n <= HighestOf(k) ==> setting == IntField(n) == IntField(wrapped % WidthOf(k)))
        && (!(LowestOf(k) <= n <= HighestOf(k)) ==> setting == Default(p, k, p.defaultCid) && !EntryFine(p, root, k))
      else setting == Default(p, k, p.defaultCid)
  {
    ReadConfigAt(p, prior, root, k);
    if HasUnsigned(root, k) {
      var v := Json.Lookup(root, PointerOf(k)).value;
      Json.WrapKeepsRange(v, LowestOf(k), HighestOf(k));
      if LowestOf(k) <= v.ToInt64() <= HighestOf(k) { Json.NarrowingKeeps(v.ToInt64(), WidthOf(k)); }
    }
  }

  ghost predicate HoldsInteger(fields: map<string, Json.Value>, key: string, n: int) {
    key in fields && fields[key].IsInteger() && fields[key].Mathematical() == n
  }

  /** What the "uid" object means, said as a relation. */
  ghost predicate DenotesUid(fields: map<string, Json.Value>, uid: Uid) {
    && 0 < uid.manufacturer < 0x8000
    && HoldsInteger(fields, "manufacturer_id", uid.manufacturer)
    && "type" in fields
    && match uid
       case Static(_, device) =>
         && 0 <= device <= 0xffff_ffff
         && HoldsInteger(fields, "device_id", device)
         && fields["type"] == Json.String("static")
       case DynamicRequest(_) =>
         "device_id" !in fields && fields["type"] == Json.String("dynamic")
  }

  lemma UidIsWhatTheObjectDenotes(fields: map<string, Json.Value>, uid: Uid)
    ensures UidOf(fields) == Some(uid) <==> DenotesUid(fields, uid)
  {
    assert "static" != "dynamic";
  }

  // ---------- Well-formedness ----------

  predicate FieldWellFormed(p: Platform, k: Key, f: Field)
    requires Fits(k, f)
  {
    match k
    case CidKey => f.uuid != NULL_UUID
    case UidKey =>
      && 0 < f.uid.manufacturer <= MAX_MANUFACTURER_ID
      && (f.uid.Static? ==> 0 <= f.uid.device <= MAX_UINT)
    case ServiceNameKey => 0 < |f.text| <= p.maxServiceName
    case ManufacturerKey => 0 < |f.text| <= p.maxManufacturer
    case ModelKey => 0 < |f.text| <= p.maxModel
    case ScopeKey => 0 < |f.text| <= p.maxScope
    case ListenPortKey => f.n == 0 || MIN_PORT <= f.n <= MAX_PORT
    case ListenInterfacesKey => true
    case LogLevelKey => LevelOfMask(p, f.n).Some?
    case EnableBrokerKey => true
    case _ => 0 <= f.n <= MAX_UINT
  }

  ghost predicate WellFormed(p: Platform, c: Config) {
    forall k :: FieldWellFormed(p, k, Get(c, k))
  }

  function LevelOfMask(p: Platform, mask: int): Option<LogLevel> {
    if mask == p.logUpTo(Debug) then Some(Debug)
    else if mask == p.logUpTo(Info) then Some(Info)
    else if mask == p.logUpTo(Notice) then Some(Notice)
    else if mask == p.logUpTo(Warning) then Some(Warning)
    else if mask == p.logUpTo(Err) then Some(Err)
    else if mask == p.logUpTo(Crit) then Some(Crit)
    else if mask == p.logUpTo(Alert) then Some(Alert)
    else if mask == p.logUpTo(Emerg) then Some(Emerg)
    else None
  }

  lemma ParsedIsWellFormed(p: Platform, k: Key, v: Json.Value)
    requires p.Sound()
    requires Json.KindOf(v) == WantedKind(k) && Parsed(p, k, v).Some?
    ensures FieldWellFormed(p, k, Parsed(p, k, v).value)
  {
    if k == UidKey {
      UidIsWhatTheObjectDenotes(v.fields, UidOf(v.fields).value);
    } else if k == LogLevelKey {
      var level := LevelNamed(v.text).value;
      assert LevelOfMask(p, p.logUpTo(level)).Some?;
    }
  }

  lemma DefaultIsWellFormed(p: Platform, k: Key, cid: Uuid)
    requires p.Sound()
    ensures FieldWellFormed(p, k, Default(p, k, cid))
  {
  }

  lemma ExpectedIsWellFormed(p: Platform, prior: seq<string>, root: Json.Value, k: Key)
    requires p.Sound()
    ensures FieldWellFormed(p, k, Expected(p, prior, root, k))
  {
    var cid := CidOf(p, root);
    match Given(p, root, k)
    case Some(f) =>
      ParsedIsWellFormed(p, k, Json.Lookup(root, PointerOf(k)).value);
      assert k != ListenInterfacesKey ==> Merged(prior, k, f) == f;
    case None => DefaultIsWellFormed(p, k, cid);
  }

  lemma ReadIsWellFormed(p: Platform, prior: seq<string>, root: Json.Value)
    requires p.Sound()
    ensures WellFormed(p, ReadConfig(p, prior, root))
  {
    var c := ReadConfig(p, prior, root);
    forall k ensures FieldWellFormed(p, k, Get(c, k)) {
      ExpectedIsWellFormed(p, prior, root, k);
      ReadConfigAt(p, prior, root, k);
    }
  }

  lemma DefaultConfigIsWellFormed(p: Platform)
    requires p.Sound()
    ensures WellFormed(p, DefaultConfig(p))
  {
    forall k ensures FieldWellFormed(p, k, Get(DefaultConfig(p), k)) {
      DefaultConfigAt(p, k);
      DefaultIsWellFormed(p, k, p.defaultCid);
    }
  }

  /** Every load, failed or not, leaves usable settings. */
  lemma LoadIsWellFormed(p: Platform, file: ConfFile)
    requires p.Sound()
    ensures WellFormed(p, LoadedConfig(p, file))
  {
    match Document(p, file)
    case Some(root) => ReadIsWellFormed(p, [], root);
    case None =>
      DefaultConfigIsWellFormed(p);
      forall k ensures FieldWellFormed(p, k, Get(LoadedConfig(p, file), k)) {
        assert FieldWellFormed(p, k, Get(DefaultConfig(p), k));
        assert k != EnableBrokerKey ==> Get(LoadedConfig(p, file), k) == Get(DefaultConfig(p), k);
      }
  }

  /** The defaults are what an empty document means. */
  lemma EmptyDocumentMeansDefaults(p: Platform)
    ensures ReadConfig(p, [], EMPTY_DOCUMENT) == DefaultConfig(p)
  {
    EmptyDocumentGivesNothing(CidKey);
    forall k ensures Get(ReadConfig(p, [], EMPTY_DOCUMENT), k) == Get(DefaultConfig(p), k) {
      EmptyDocumentGivesNothing(k);
      ReadConfigAt(p, [], EMPTY_DOCUMENT, k);
      DefaultConfigAt(p, k);
    }
    SameFieldsSameConfig(ReadConfig(p, [], EMPTY_DOCUMENT), DefaultConfig(p));
  }

  // ---------- Settings do not interfere ----------

  /** Pointers are told apart by the lengths and a letter of their tokens. */
  lemma TokenShape(k: Key)
    ensures var ptr := PointerOf(k);
      && (k.ServiceNameKey? || k.ManufacturerKey? || k.ModelKey? <==> |ptr| == 2)
      && 1 <= |ptr| <= 2
      && (|ptr| == 2 ==> |ptr[0]| == 6)
      && |ptr[|ptr| - 1]| == (match k
         case CidKey => 3 case UidKey => 3 case ServiceNameKey => 21 case ManufacturerKey => 12 case ModelKey => 5
         case ScopeKey => 5 case ListenPortKey => 11 case ListenInterfacesKey => 17 case LogLevelKey => 9
         case ConnectionsKey => 15 case ControllersKey => 15 case ControllerMessagesKey => 23
         case DevicesKey => 11 case DeviceMessagesKey => 19 case RejectConnectionsKey => 22 case EnableBrokerKey => 13)
      && (forall t | t in ptr :: t != "" && !Json.IsDigit(t[0]))
  {
  }

  lemma SameLengthTokens()
    ensures PointerOf(CidKey)[0] != PointerOf(UidKey)[0]
    ensures PointerOf(ListenPortKey)[0] != PointerOf(DevicesKey)[0]
    ensures PointerOf(ConnectionsKey)[0] != PointerOf(ControllersKey)[0]
  {
    assert PointerOf(CidKey)[0][0] != PointerOf(UidKey)[0][0];
    assert PointerOf(ListenPortKey)[0][0] != PointerOf(DevicesKey)[0][0];
    assert PointerOf(ConnectionsKey)[0][7] != PointerOf(ControllersKey)[0][7];
  }

  lemma PointersDiverge(k: Key, k': Key)
    requires k != k'
    ensures Json.Diverge(PointerOf(k), PointerOf(k'))
  {
    TokenShape(k);
    TokenShape(k');
    SameLengthTokens();
    var p, q := PointerOf(k), PointerOf(k');
    if |p| == 2 && |q| == 2 {
      assert p[0] == q[0] == "dns_sd";
      assert p[1] != q[1] && p[..1] == q[..1];
    } else {
      assert p[0] != q[0] && p[..0] == q[..0];
    }
  }

  /** Entries below a "dns_sd" that is no object, not even an array with indices, count as absent. */
  lemma NonObjectParentHidesEntries(p: Platform, root: Json.Value, k: Key)
    requires |PointerOf(k)| == 2 && root.Object?
    requires "dns_sd" in root.fields && !root.fields["dns_sd"].Object?
    ensures Json.Lookup(root, PointerOf(k)) == None && EntryFine(p, root, k)
  {
    TokenShape(k);
    var token := PointerOf(k)[1];
    assert PointerOf(k) == ["dns_sd", token];
    assert token in PointerOf(k) && !Json.IsArrayIndex(token);
    assert PointerOf(k)[1..] == [token];
  }

  lemma EditLeavesOtherEntries(root: Json.Value, k: Key, leaf: Json.Value, k': Key)
    requires k != k'
    ensures Json.Lookup(Json.Put(root, PointerOf(k), leaf), PointerOf(k')) == Json.Lookup(root, PointerOf(k'))
  {
    PointersDiverge(k, k');
    TokenShape(k');
    Json.PutElsewhere(root, PointerOf(k), leaf, PointerOf(k'));
  }

  lemma GivenIsLocal(p: Platform, a: Json.Value, b: Json.Value, k: Key)
    requires Json.Lookup(a, PointerOf(k)) == Json.Lookup(b, PointerOf(k))
    ensures Given(p, a, k) == Given(p, b, k)
  {
  }

  lemma ExpectedIsLocal(p: Platform, prior: seq<string>, a: Json.Value, b: Json.Value, k: Key)
    requires Json.Lookup(a, PointerOf(k)) == Json.Lookup(b, PointerOf(k))
    requires k == ServiceNameKey && Given(p, a, k) == None ==> Given(p, a, CidKey) == Given(p, b, CidKey)
    ensures Expected(p, prior, a, k) == Expected(p, prior, b, k)
  {
    GivenIsLocal(p, a, b, k);
    EntryResultDependencies(p, a, k, prior, CidOf(p, a), prior, CidOf(p, b));
  }

  /** Documents that agree outside entry `k` give the same settings outside `k` and its one dependant. */
  lemma SettingsDoNotInterfere(p: Platform, prior: seq<string>, a: Json.Value, b: Json.Value, k: Key, k': Key)
    requires forall j :: j != k ==> Json.Lookup(a, PointerOf(j)) == Json.Lookup(b, PointerOf(j))
    requires k' != k
    requires k == CidKey && k' == ServiceNameKey ==> Given(p, a, ServiceNameKey).Some?
    ensures Get(ReadConfig(p, prior, a), k') == Get(ReadConfig(p, prior, b), k')
  {
    if k' == ServiceNameKey && k != CidKey {
      GivenIsLocal(p, a, b, CidKey);
    }
    ExpectedIsLocal(p, prior, a, b, k');
    ReadConfigAt(p, prior, a, k');
    ReadConfigAt(p, prior, b, k');
  }

  /** Editing one entry of a document changes that setting, and no other but a defaulted service name. */
  lemma EditReachesOneSetting(p: Platform, prior: seq<string>, root: Json.Value, k: Key, leaf: Json.Value, k': Key)
    requires k' != k
    requires !(k == CidKey && k' == ServiceNameKey && Given(p, root, ServiceNameKey) == None)
    ensures Get(ReadConfig(p, prior, Json.Put(root, PointerOf(k), leaf)), k') == Get(ReadConfig(p, prior, root), k')
  {
    var edited := Json.Put(root, PointerOf(k), leaf);
    forall j | j != k ensures Json.Lookup(root, PointerOf(j)) == Json.Lookup(edited, PointerOf(j)) {
      EditLeavesOtherEntries(root, k, leaf, j);
    }
    SettingsDoNotInterfere(p, prior, root, edited, k, k');
  }

  /** The exception, exactly: a defaulted service name follows the CID, and different CIDs show. */
  lemma CidEditReachesDefaultedName(p: Platform, prior: seq<string>, root: Json.Value, leaf: Json.Value)
    requires p.Sound()
    requires Given(p, root, ServiceNameKey) == None
    ensures var before := ReadConfig(p, prior, root).settings;
      var after := ReadConfig(p, prior, Json.Put(root, PointerOf(CidKey), leaf)).settings;
      before.dns.serviceInstanceName == after.dns.serviceInstanceName <==> before.cid == after.cid
  {
    var edited := Json.Put(root, PointerOf(CidKey), leaf);
    EditLeavesOtherEntries(root, CidKey, leaf, ServiceNameKey);
    DefaultedNameCarriesFinalCid(p, prior, root);
    DefaultedNameCarriesFinalCid(p, prior, edited);
    var before, after := ReadConfig(p, prior, root).settings, ReadConfig(p, prior, edited).settings;
    ReadIsWellFormed(p, prior, root);
    ReadIsWellFormed(p, prior, edited);
    assert FieldWellFormed(p, CidKey, Get(ReadConfig(p, prior, root), CidKey));
    assert FieldWellFormed(p, CidKey, Get(ReadConfig(p, prior, edited), CidKey));
    var n := |SERVICE_NAME_PREFIX|;
    assert before.dns.serviceInstanceName[n..] == p.printUuid(before.cid);
    assert after.dns.serviceInstanceName[n..] == p.printUuid(after.cid);
  }

  // ---------- Round trip through a canonical document ----------

  function LevelName(level: LogLevel): string {
    match level
    case Debug => "debug" case Info => "info" case Notice => "notice" case Warning => "warning"
    case Err => "err" case Crit => "crit" case Alert => "alert" case Emerg => "emerg"
  }

  lemma LevelNameRoundTrip(level: LogLevel)
    ensures LevelNamed(LevelName(level)) == Some(level)
  {
    assert "debug"[0] == 'd' && "info"[0] == 'i' && "notice"[0] == 'n' && "warning"[0] == 'w';
    assert "err"[1] == 'r' && "crit"[0] == 'c' && "alert"[0] == 'a' && "emerg"[1] == 'm';
  }

  function Number(n: int): Json.Value {
    if 0 <= n < Json.TWO_64 then Json.Unsigned(n) else Json.Null
  }

  function RenderUid(uid: Uid): map<string, Json.Value> {
    match uid
    case Static(manufacturer, device) =>
      map["type" := Json.String("static"), "manufacturer_id" := Number(manufacturer), "device_id" := Number(device)]
    case DynamicRequest(manufacturer) =>
      map["type" := Json.String("dynamic"), "manufacturer_id" := Number(manufacturer)]
  }

  /** How a setting is written down; port 0 has no representation and is left out. */
  function RenderField(p: Platform, k: Key, f: Field): Option<Json.Value>
    requires Fits(k, f)
  {
    match k
    case CidKey => Some(Json.String(p.printUuid(f.uuid)))
    case UidKey => Some(Json.Object(RenderUid(f.uid)))
    case ServiceNameKey | ManufacturerKey | ModelKey | ScopeKey => Some(Json.String(f.text))
    case ListenPortKey => if f.n == 0 then None else Some(Number(f.n))
    case ListenInterfacesKey =>
      Some(Json.Array(seq(|f.names|, i requires 0 <= i < |f.names| => Json.String(f.names[i]))))
    case LogLevelKey =>
      (match LevelOfMask(p, f.n) case Some(level) => Some(Json.String(LevelName(level))) case None => None)
    case EnableBrokerKey => Some(Json.Boolean(f.flag))
    case _ => Some(Number(f.n))
  }

  /** A document made of the given entries, the first `i` of the table. */
  function Compose(entries: Key -> Option<Json.Value>, i: nat): Json.Value
    requires i <= |ORDER|
  {
    if i == 0 then EMPTY_DOCUMENT else Entered(Compose(entries, i - 1), ORDER[i - 1], entries(ORDER[i - 1]))
  }

  function Entered(root: Json.Value, k: Key, entry: Option<Json.Value>): Json.Value {
    match entry case None => root case Some(v) => Json.Put(root, PointerOf(k), v)
  }

  /** The canonical document of a configuration. */
  function Render(p: Platform, c: Config): Json.Value {
    Compose(k => RenderField(p, k, Get(c, k)), |ORDER|)
  }

  lemma {:induction false} ComposeAt(entries: Key -> Option<Json.Value>, i: nat, k: Key)
    requires i <= |ORDER|
    ensures Json.Lookup(Compose(entries, i), PointerOf(k)) == if Position(k) < i then entries(k) else None
  {
    if i == 0 {
      EmptyDocumentGivesNothing(k);
    } else {
      ComposeAt(entries, i - 1, k);
      PositionOfEntry(i - 1);
      assert Position(k) == i - 1 <==> k == ORDER[i - 1];
      EnteredAt(Compose(entries, i - 1), ORDER[i - 1], entries(ORDER[i - 1]), k);
    }
  }

  lemma EnteredAt(root: Json.Value, j: Key, entry: Option<Json.Value>, k: Key)
    ensures Json.Lookup(Entered(root, j, entry), PointerOf(k))
            == if j == k && entry.Some? then entry else Json.Lookup(root, PointerOf(k))
  {
    if entry.Some? {
      if j == k {
        Json.PutThenLookup(root, PointerOf(j), entry.value);
      } else {
        EditLeavesOtherEntries(root, j, entry.value, k);
      }
    }
  }

  lemma {:induction false} ComposedIsObject(entries: Key -> Option<Json.Value>, i: nat)
    requires i <= |ORDER|
    ensures Compose(entries, i).Object?
  {
    if 0 < i {
      ComposedIsObject(entries, i - 1);
      TokenShape(ORDER[i - 1]);
    }
  }

  lemma RenderAt(p: Platform, c: Config, k: Key)
    ensures Json.Lookup(Render(p, c), PointerOf(k)) == RenderField(p, k, Get(c, k))
  {
    ComposeAt(j => RenderField(p, j, Get(c, j)), |ORDER|, k);
  }

  lemma RenderedUidReadsBack(uid: Uid)
    requires 0 < uid.manufacturer <= MAX_MANUFACTURER_ID
    requires uid.Static? ==> 0 <= uid.device <= MAX_UINT
    ensures UidOf(RenderUid(uid)) == Some(uid)
  {
    assert |"type"| == 4 && |"manufacturer_id"| == 15 && |"device_id"| == 9;
    UidIsWhatTheObjectDenotes(RenderUid(uid), uid);
  }

  lemma RenderedFieldReadsBack(p: Platform, k: Key, f: Field)
    requires p.Sound() && Fits(k, f) && FieldWellFormed(p, k, f)
    ensures match RenderField(p, k, f)
      case Some(v) => Json.KindOf(v) == WantedKind(k) && Parsed(p, k, v) == Some(f)
      case None => forall cid :: Default(p, k, cid) == f
  {
    match k
    case UidKey => RenderedUidReadsBack(f.uid);
    case LogLevelKey => LevelNameRoundTrip(LevelOfMask(p, f.n).value);
    case ListenInterfacesKey =>
      var items := RenderField(p, k, f).value.items;
      assert NamesOf(items).value == f.names;
    case _ =>
  }

  /**
   Normalisation: writing a configuration down and reading it back gives the same one without
   complaint exactly when it is well-formed, as the result of every load is.
   */
  lemma RoundTripExactlyWhenWellFormed(p: Platform, c: Config)
    requires p.Sound()
    ensures Render(p, c).Object?
    ensures ReadConfig(p, [], Render(p, c)) == c <==> WellFormed(p, c)
    ensures WellFormed(p, c) ==> forall k :: EntryFine(p, Render(p, c), k)
  {
    var root := Render(p, c);
    ReadIsWellFormed(p, [], root);
    ComposedIsObject(k => RenderField(p, k, Get(c, k)), |ORDER|);
    if WellFormed(p, c) {
      forall k ensures Get(ReadConfig(p, [], root), k) == Get(c, k) && EntryFine(p, root, k) {
        RenderAt(p, c, k);
        ReadConfigAt(p, [], root, k);
        assert FieldWellFormed(p, k, Get(c, k));
        RenderedFieldReadsBack(p, k, Get(c, k));
      }
      SameFieldsSameConfig(ReadConfig(p, [], root), c);
    }
  }

  /** Normalising any load changes nothing: text that prints the canonical document reloads identically. */
  lemma NormalisationIsIdempotent(p: Platform, file: ConfFile, text: string)
    requires p.Sound()
    requires p.parseJson(text) == Some(Render(p, LoadedConfig(p, file)))
    ensures LoadedConfig(p, Opened(text)) == LoadedConfig(p, file)
  {
    LoadIsWellFormed(p, file);
    RoundTripExactlyWhenWellFormed(p, LoadedConfig(p, file));
  }
}
