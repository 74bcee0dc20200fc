/**
 Everything the broker service takes from libraries outside its repository: UUID text,
 the operating system's preferred UUID, the JSON text parser, log masks and the string
 sizes of the E1.33 protocol. `Sound` is what the model relies on.
 */
module Platform {
  import opened Wrappers
  import Json

  type Uuid = u: int | 0 <= u < 0x1_0000_0000_0000_0000_0000_0000_0000_0000

  const NULL_UUID: Uuid := 0
  const UUID_TEXT_LENGTH := 36

  datatype LogLevel = Emerg | Alert | Crit | Err | Warning | Notice | Info | Debug

  const SERVICE_NAME_PREFIX := "ETC RDMnet Broker "
  const DEFAULT_MANUFACTURER := "ETC"
  const DEFAULT_MODEL := "RDMnet Broker Service"

  datatype Platform = Platform(
    parseUuid: string -> Uuid,            // NULL_UUID when the text is no UUID
    printUuid: Uuid -> string,
    defaultCid: Uuid,
    parseJson: string -> Option<Json.Value>,
    logUpTo: LogLevel -> int,
    maxServiceName: nat,
    maxManufacturer: nat,
    maxModel: nat,
    maxScope: nat,
    defaultScope: string)
  {
    ghost predicate Sound() {
      && defaultCid != NULL_UUID
      && (forall u :: u != NULL_UUID ==> parseUuid(printUuid(u)) == u)
      && (forall u :: |printUuid(u)| == UUID_TEXT_LENGTH)
      && parseJson("") == None
      && (forall a, b :: logUpTo(a) == logUpTo(b) ==> a == b)
      && |SERVICE_NAME_PREFIX| + UUID_TEXT_LENGTH <= maxServiceName
      && |DEFAULT_MANUFACTURER| <= maxManufacturer
      && |DEFAULT_MODEL| <= maxModel
      && 0 < |defaultScope| <= maxScope
    }
  }

  // ---------- The contract can be met ----------

  const HEX := "0123456789abcdef"

  function HexDigits(u: nat, n: nat): (s: string)
    ensures |s| == n
  {
    if n == 0 then "" else [HEX[u % 16]] + HexDigits(u / 16, n - 1)
  }

  function HexDigit(c: char): nat {
    if '0' <= c <= '9' then c as int - '0' as int
    else if 'a' <= c <= 'f' then c as int - 'a' as int + 10
    else 0
  }

  function HexValue(s: string): nat {
    if s == "" then 0 else HexDigit(s[0]) + 16 * HexValue(s[1..])
  }

  function Power16(n: nat): nat {
    if n == 0 then 1 else 16 * Power16(n - 1)
  }

  lemma {:induction false} HexRoundTrip(u: nat, n: nat)
    requires u < Power16(n)
    ensures HexValue(HexDigits(u, n)) == u
  {
    if n > 0 {
      assert HexDigit(HEX[u % 16]) == u % 16;
      assert u / 16 < Power16(n - 1);
      HexRoundTrip(u / 16, n - 1);
      assert HexDigits(u, n)[1..] == HexDigits(u / 16, n - 1);
    }
  }

  function SampleUuidText(u: Uuid): string {
    HexDigits(u, UUID_TEXT_LENGTH)
  }

  function SampleUuid(s: string): Uuid {
    var u := HexValue(s);
    if u < 0x1_0000_0000_0000_0000_0000_0000_0000_0000 then u else NULL_UUID
  }

  function SampleMask(level: LogLevel): int {
    match level
    case Emerg => 1 case Alert => 3 case Crit => 7 case Err => 15
    case Warning => 31 case Notice => 63 case Info => 127 case Debug => 255
  }

  lemma SampleRoundTrip(u: Uuid)
    ensures SampleUuid(SampleUuidText(u)) == u
  {
    assert u < Power16(UUID_TEXT_LENGTH) by { Power16Bound(); }
    HexRoundTrip(u, UUID_TEXT_LENGTH);
  }

  lemma SampleMaskInjective(a: LogLevel, b: LogLevel)
    requires SampleMask(a) == SampleMask(b)
    ensures a == b
  {
  }

  lemma Power16Bound()
    ensures 0x1_0000_0000_0000_0000_0000_0000_0000_0000 <= Power16(UUID_TEXT_LENGTH)
  {
    assert Power16(8) == 0x1_0000_0000;
    assert Power16(16) == Power16(8) * 0x1_0000_0000;
    assert Power16(24) == Power16(16) * 0x1_0000_0000;
    assert Power16(32) == Power16(24) * 0x1_0000_0000;
    assert Power16(36) == Power16(32) * 0x1_0000;
  }

  lemma SoundPlatformExists()
    ensures exists p: Platform :: p.Sound()
  {
    var p := Platform(SampleUuid, SampleUuidText, 1, _ => None, SampleMask, 64, 250, 250, 63, "default");
    forall u: Uuid ensures p.parseUuid(p.printUuid(u)) == u { SampleRoundTrip(u); }
    forall a, b | p.logUpTo(a) == p.logUpTo(b) ensures a == b { SampleMaskInjective(a, b); }
    assert p.Sound();
  }
}
