/**
 The configuration reader of src/core/broker_config.cpp: one object whose settings the
 validators write in place while a loop walks the settings table. Every method is tied to
 the field-by-field reference of `ConfigSpec`.
 */
module BrokerConfig {
  import opened Wrappers
  import opened Platform
  import opened ConfigSpec
  import Json

  const LOG_LEVEL_OPTIONS: map<string, LogLevel> := map[
    "debug" := Debug, "info" := Info, "notice" := Notice, "warning" := Warning,
    "err" := Err, "crit" := Crit, "alert" := Alert, "emerg" := Emerg]

  /** The table holds exactly the named levels. */
  lemma OptionsAreTheLevels(name: string)
    ensures LevelNamed(name) == if name in LOG_LEVEL_OPTIONS then Some(LOG_LEVEL_OPTIONS[name]) else None
  {
  }

  class BrokerConfig {
    const platform: Platform
    var settings: Settings
    var logMask: int
    var enableBroker: bool
    var current: Json.Value

    constructor (platform: Platform, settings: Settings, logMask: int, enableBroker: bool)
      ensures this.platform == platform
      ensures Value() == Config(settings, logMask, enableBroker)
    {
      this.platform := platform;
      this.settings, this.logMask, this.enableBroker := settings, logMask, enableBroker;
      this.current := Json.Null;
    }

    function Value(): Config
      reads this`settings, this`logMask, this`enableBroker
    {
      Config(settings, logMask, enableBroker)
    }

    // ---------- Validators ----------

    /** Writes the CID before looking at it: a rejected one leaves the null UUID behind. */
    method ValidateAndStoreCid(val: Json.Value) returns (ok: bool)
      requires val.String?
      modifies this`settings
      ensures ok <==> platform.parseUuid(val.text) != NULL_UUID
      ensures settings == old(settings).(cid := platform.parseUuid(val.text))
    {
      settings := settings.(cid := platform.parseUuid(val.text));
      ok := settings.cid != NULL_UUID;
    }

    method ValidateAndStoreUid(val: Json.Value) returns (ok: bool)
      requires val.Object?
      modifies this`settings
      ensures ok <==> UidOf(val.fields).Some?
      ensures ok ==> settings == old(settings).(uid := UidOf(val.fields).value)
      ensures !ok ==> settings == old(settings)
    {
      if !val.Contains("type") { return false; }
      if !val.fields["type"].String? { return false; }
      if !val.Contains("manufacturer_id") { return false; }
      if !val.fields["manufacturer_id"].IsInteger() { return false; }

      var uidType := val.fields["type"].text;
      var manufacturerId := val.fields["manufacturer_id"].ToInt64();
      Json.WrapKeepsRange(val.fields["manufacturer_id"], 1, MAX_MANUFACTURER_ID);
      if manufacturerId <= 0 || manufacturerId >= 0x8000 { return false; }

      if uidType == "static" {
        if !val.Contains("device_id") { return false; }
        if !val.fields["device_id"].IsInteger() { return false; }
        var deviceId := val.fields["device_id"].ToInt64();
        Json.WrapKeepsRange(val.fields["device_id"], 0, MAX_UINT);
        if deviceId < 0 || deviceId > 0xffff_ffff { return false; }
        settings := settings.(uid := Static(manufacturerId % 0x1_0000, deviceId % 0x1_0000_0000));
        return true;
      } else if uidType == "dynamic" {
        if val.Contains("device_id") { return false; }
        settings := settings.(uid := DynamicRequest(manufacturerId % 0x1_0000));
        return true;
      } else {
        return false;
      }
    }

    /** `target` is the string setting as it stands, `stored` as it is left. */
    static method ValidateAndStoreString(val: Json.Value, target: string, maxSize: nat, truncationAllowed: bool)
      returns (ok: bool, stored: string)
      requires val.String?
      ensures ok <==> 0 < |val.text| && (|val.text| <= maxSize || truncationAllowed)
      ensures ok ==> stored <= val.text && |stored| == if |val.text| <= maxSize then |val.text| else maxSize
      ensures !ok ==> stored == target
    {
      stored := target;
      var strVal := val.text;
      if strVal == "" { return false, stored; }
      if |strVal| > maxSize {
        if truncationAllowed {
          stored := strVal[..maxSize];
          return true, stored;
        } else {
          return false, stored;
        }
      }
      stored := strVal;
      ok := true;
    }

    /**
     The target is an unsigned integer of `modulus` values. The value is converted to 64
     signed bits, compared, and narrowed; the result speaks about the number it denotes.
     */
    static method ValidateAndStoreInt(val: Json.Value, setting: int, lo: int, hi: int, modulus: int)
      returns (ok: bool, stored: int)
      requires val.IsInteger()
      requires 0 <= lo <= hi < modulus <= 0x1_0000_0000
      ensures ok <==> lo <= val.Mathematical() <= hi
      ensures stored == if ok then val.Mathematical() else setting
    {
      Json.WrapKeepsRange(val, lo, hi);
      stored := setting;
      var intVal := val.ToInt64();
      if intVal < lo || intVal > hi { return false, stored; }
      Json.NarrowingKeeps(intVal, modulus);
      stored := intVal % modulus;
      ok := true;
    }

    /** Appends names one by one; a bad element clears the whole list, old names included. */
    method ValidateAndStoreInterfaceList(val: Json.Value) returns (ok: bool)
      requires val.Array?
      modifies this`settings
      ensures ok <==> NamesOf(val.items).Some?
      ensures ok ==>
        settings == old(settings).(listenInterfaces := old(settings).listenInterfaces + NamesOf(val.items).value)
      ensures !ok ==> settings == old(settings).(listenInterfaces := [])
    {
      var listenInterfaces := val.items;
      for i := 0 to |listenInterfaces|
        invariant forall j | 0 <= j < i :: listenInterfaces[j].String?
        invariant settings == old(settings).(listenInterfaces := settings.listenInterfaces)
        invariant settings.listenInterfaces == old(settings).listenInterfaces
                  + seq(i, j requires 0 <= j < i && listenInterfaces[j].String? => listenInterfaces[j].text)
      {
        if !listenInterfaces[i].String? {
          settings := settings.(listenInterfaces := []);
          return false;
        }
        settings := settings.(listenInterfaces := settings.listenInterfaces + [listenInterfaces[i].text]);
      }
      ok := true;
    }

    method ValidateAndStoreLogLevel(val: Json.Value) returns (ok: bool)
      requires val.String?
      modifies this`logMask
      ensures ok <==> LevelNamed(val.text).Some?
      ensures logMask == if ok then platform.logUpTo(LevelNamed(val.text).value) else old(logMask)
    {
      OptionsAreTheLevels(val.text);
      if val.text !in LOG_LEVEL_OPTIONS { return false; }
      logMask := platform.logUpTo(LOG_LEVEL_OPTIONS[val.text]);
      ok := true;
    }

    // ---------- The two columns of the settings table ----------

    /** The `validate_and_store` column: a rejected value may leave its own setting changed, no other. */
    method ValidateAndStore(key: Key, val: Json.Value) returns (ok: bool)
      requires Json.KindOf(val) == WantedKind(key)
      modifies this`settings, this`logMask, this`enableBroker
      ensures ok <==> Parsed(platform, key, val).Some?
      ensures ok ==> Get(Value(), key) == Merged(old(settings).listenInterfaces, key, Parsed(platform, key, val).value)
      ensures forall k :: k != key ==> Get(Value(), k) == Get(old(Value()), k)
    {
      match key
      case CidKey => ok := ValidateAndStoreCid(val);
      case UidKey => ok := ValidateAndStoreUid(val);
      case ServiceNameKey =>
        var s;
        ok, s := ValidateAndStoreString(val, settings.dns.serviceInstanceName, platform.maxServiceName, true);
        settings := settings.(dns := settings.dns.(serviceInstanceName := s));
      case ManufacturerKey =>
        var s;
        ok, s := ValidateAndStoreString(val, settings.dns.manufacturer, platform.maxManufacturer, true);
        settings := settings.(dns := settings.dns.(manufacturer := s));
      case ModelKey =>
        var s;
        ok, s := ValidateAndStoreString(val, settings.dns.model, platform.maxModel, true);
        settings := settings.(dns := settings.dns.(model := s));
      case ScopeKey =>
        var s;
        ok, s := ValidateAndStoreString(val, settings.scope, platform.maxScope, false);
        settings := settings.(scope := s);
      case ListenPortKey =>
        var n;
        ok, n := ValidateAndStoreInt(val, settings.listenPort, MIN_PORT, MAX_PORT, 0x1_0000);
        settings := settings.(listenPort := n);
      case ListenInterfacesKey => ok := ValidateAndStoreInterfaceList(val);
      case LogLevelKey => ok := ValidateAndStoreLogLevel(val);
      case EnableBrokerKey =>
        enableBroker := val.flag;
        ok := true;
      case _ => ok := ValidateAndStoreLimit(key, val);
    }

    method ValidateAndStoreLimit(key: Key, val: Json.Value) returns (ok: bool)
      requires Position(ConnectionsKey) <= Position(key) <= Position(RejectConnectionsKey)
      requires val.Unsigned?
      modifies this`settings
      ensures ok <==> Parsed(platform, key, val).Some?
      ensures ok ==> Get(Value(), key) == Parsed(platform, key, val).value
      ensures forall k :: k != key ==> Get(Value(), k) == Get(old(Value()), k)
    {
      var n;
      ok, n := ValidateAndStoreInt(val, Get(Value(), key).n, 0, MAX_UINT, 0x1_0000_0000);
      StoreLimit(key, n);
    }

    method StoreLimit(key: Key, n: int)
      requires Position(ConnectionsKey) <= Position(key) <= Position(RejectConnectionsKey)
      modifies this`settings
      ensures Get(Value(), key) == IntField(n)
      ensures forall k :: k != key ==> Get(Value(), k) == Get(old(Value()), k)
    {
      var limits := settings.limits;
      match key {
        case ConnectionsKey => limits := limits.(connections := n);
        case ControllersKey => limits := limits.(controllers := n);
        case ControllerMessagesKey => limits := limits.(controllerMessages := n);
        case DevicesKey => limits := limits.(devices := n);
        case DeviceMessagesKey => limits := limits.(deviceMessages := n);
        case RejectConnectionsKey => limits := limits.(rejectConnections := n);
      }
      settings := settings.(limits := limits);
    }

    /** The `store_default` column. The service name takes the CID as it stands at that moment. */
    method StoreDefault(key: Key)
      modifies this`settings, this`logMask, this`enableBroker
      ensures Get(Value(), key) == Default(platform, key, old(settings).cid)
      ensures forall k :: k != key ==> Get(Value(), k) == Get(old(Value()), k)
    {
      match key
      case CidKey => settings := settings.(cid := platform.defaultCid);
      case UidKey => settings := settings.(uid := DynamicRequest(ETC_MANUFACTURER_ID));
      case ServiceNameKey =>
        settings := settings.(dns := settings.dns.(
          serviceInstanceName := SERVICE_NAME_PREFIX + platform.printUuid(settings.cid)));
      case ManufacturerKey => settings := settings.(dns := settings.dns.(manufacturer := DEFAULT_MANUFACTURER));
      case ModelKey => settings := settings.(dns := settings.dns.(model := DEFAULT_MODEL));
      case ScopeKey => settings := settings.(scope := platform.defaultScope);
      case ListenPortKey => settings := settings.(listenPort := 0);
      case ListenInterfacesKey => settings := settings.(listenInterfaces := []);
      case LogLevelKey => logMask := platform.logUpTo(Info);
      case ConnectionsKey | ControllersKey | DevicesKey => StoreLimit(key, 0);
      case ControllerMessagesKey | DeviceMessagesKey => StoreLimit(key, 500);
      case RejectConnectionsKey => StoreLimit(key, 1000);
      case EnableBrokerKey => enableBroker := true;
    }

    // ---------- Whole-document operations ----------

    method SetDefaults()
      modifies this`settings, this`logMask, this`enableBroker
      ensures Value() == DefaultConfig(platform)
    {
      for i := 0 to |ORDER|
        invariant DefaultedUpTo(platform, Value(), i)
      {
        ghost var before := Value();
        StoreDefault(ORDER[i]);
        DefaultOneMore(platform, before, Value(), i);
      }
      AllDefaulted(platform, Value());
    }

    method ValidateCurrent() returns (res: ParseResult)
      modifies this`settings, this`logMask, this`enableBroker
      ensures res == JsonParseErr <==> !current.Object?
      ensures res == JsonParseErr ==> Value() == old(Value())
      ensures current.Object? ==> Value() == ReadConfig(platform, old(settings).listenInterfaces, current)
      ensures current.Object? ==> (res == Ok <==> forall k :: EntryFine(platform, current, k))
    {
      if !current.Object? { return JsonParseErr; }
      res := Ok;
      ghost var start := Value();
      for i := 0 to |ORDER|
        invariant res != JsonParseErr
        invariant res == Ok <==> FineUpTo(platform, current, i)
        invariant Processed(platform, current, start, Value(), i)
      {
        ghost var before := Value();
        var fine := ProcessEntry(ORDER[i]);
        ProcessOneMore(platform, current, start, before, Value(), i);
        if !fine { res := InvalidSetting; }
      }
      AllProcessed(platform, current, start, Value());
    }

    /** The body of the table loop, for one entry. */
    method ProcessEntry(key: Key) returns (fine: bool)
      modifies this`settings, this`logMask, this`enableBroker
      ensures fine <==> EntryFine(platform, current, key)
      ensures Get(Value(), key)
              == EntryResult(platform, old(settings).listenInterfaces, old(settings).cid, current, key)
      ensures forall k :: k != key ==> Get(Value(), k) == Get(old(Value()), k)
    {
      fine := true;
      var found := Json.Lookup(current, PointerOf(key));
      if found.Some? {
        var val := found.value;
        if val.Null? {
          assert Given(platform, current, key) == None;
          StoreDefault(key);
        } else if Json.KindOf(val) != WantedKind(key) {
          assert Given(platform, current, key) == None;
          StoreDefault(key);
          fine := false;
        } else {
          assert Given(platform, current, key) == Parsed(platform, key, val);
          assert Get(Value(), CidKey) == UuidField(settings.cid);
          fine := ValidateAndStore(key, val);
          assert key != CidKey ==> Get(Value(), CidKey) == UuidField(old(settings).cid);
          if !fine { StoreDefault(key); }
        }
      } else {
        assert Given(platform, current, key) == None;
        StoreDefault(key);
      }
    }

    /** `text` is all the stream delivers. */
    method Read(text: string) returns (res: ParseResult)
      modifies this
      ensures var parsed := platform.parseJson(text);
        && (res == JsonParseErr <==> parsed == None || !parsed.value.Object?)
        && (res == JsonParseErr ==> Value() == old(Value()))
        && (res != JsonParseErr ==> Value() == ReadConfig(platform, old(settings).listenInterfaces, parsed.value))
        && (res != JsonParseErr ==> (res == Ok <==> forall k :: EntryFine(platform, parsed.value, k)))
    {
      var parsed := platform.parseJson(text);
      if parsed == None {
        current := *;  // whatever the parser had built so far
        return JsonParseErr;
      }
      current := parsed.value;
      res := ValidateCurrent();
    }
  }
}
