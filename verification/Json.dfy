/**
 JSON values as the configuration reader sees them, after parsing. Strings are byte
 strings: one `char` stands for one byte of the UTF-8 text.
 */
module Json {
  import opened Wrappers

  const TWO_63 := 0x8000_0000_0000_0000
  const TWO_64 := 0x1_0000_0000_0000_0000

  type Int64 = i: int | -TWO_63 <= i < TWO_63
  type UInt64 = u: int | 0 <= u < TWO_64

  datatype Value =
    | Null
    | Boolean(flag: bool)
    | Signed(i: Int64)
    | Unsigned(u: UInt64)
    | Float(r: real)
    | String(text: string)
    | Array(items: seq<Value>)
    | Object(fields: map<string, Value>)
  {
    predicate IsInteger() {
      Signed? || Unsigned?
    }

    /** The number an integer value denotes. */
    function Mathematical(): int
      requires IsInteger()
    {
      match this
      case Signed(i) => i
      case Unsigned(u) => u
    }

    /** Conversion to a signed 64-bit variable: large unsigned values wrap around. */
    function ToInt64(): (r: Int64)
      requires IsInteger()
    {
      match this
      case Signed(i) => i
      case Unsigned(u) => if u < TWO_63 then u else u - TWO_64
    }

    predicate Contains(key: string)
      requires Object?
    {
      key in fields
    }
  }

  datatype Kind =
    | NullKind | BooleanKind | SignedKind | UnsignedKind | FloatKind | StringKind | ArrayKind | ObjectKind

  function KindOf(v: Value): Kind {
    match v
    case Null => NullKind
    case Boolean(_) => BooleanKind
    case Signed(_) => SignedKind
    case Unsigned(_) => UnsignedKind
    case Float(_) => FloatKind
    case String(_) => StringKind
    case Array(_) => ArrayKind
    case Object(_) => ObjectKind
  }

  // ---------- JSON Pointer evaluation, section 4 of RFC 6901 ----------

  type Pointer = seq<string>

  predicate IsDigit(c: char) {
    '0' <= c <= '9'
  }

  /** Array references are digits without a leading zero. */
  predicate IsArrayIndex(token: string) {
    && token != ""
    && (forall i | 0 <= i < |token| :: IsDigit(token[i]))
    && (token[0] == '0' ==> |token| == 1)
  }

  function DecimalValue(token: string): nat
    requires forall i | 0 <= i < |token| :: IsDigit(token[i])
  {
    if token == "" then 0
    else
      assert IsDigit(token[|token| - 1]);
      10 * DecimalValue(token[..|token| - 1]) + (token[|token| - 1] as int - '0' as int)
  }

  function Lookup(v: Value, pointer: Pointer): Option<Value>
    decreases |pointer|
  {
    if pointer == [] then Some(v)
    else
      match v
      case Object(fields) =>
        if pointer[0] in fields then Lookup(fields[pointer[0]], pointer[1..]) else None
      case Array(items) =>
        if IsArrayIndex(pointer[0]) && DecimalValue(pointer[0]) < |items|
        then Lookup(items[DecimalValue(pointer[0])], pointer[1..])
        else None
      case _ => None
  }

  /** Stores `leaf` under `pointer`, turning whatever is not an object on the way into one. */
  function Put(v: Value, pointer: Pointer, leaf: Value): Value
    decreases |pointer|
  {
    if pointer == [] then leaf
    else
      var fields := if v.Object? then v.fields else map[];
      var child := if pointer[0] in fields then fields[pointer[0]] else Null;
      Object(fields[pointer[0] := Put(child, pointer[1..], leaf)])
  }

  /** Two pointers diverge when neither leads into or through the other. */
  ghost predicate Diverge(p: Pointer, q: Pointer) {
    exists i :: 0 <= i < |p| && i < |q| && p[i] != q[i] && p[..i] == q[..i]
  }

  lemma {:induction false} PutThenLookup(v: Value, p: Pointer, leaf: Value)
    ensures Lookup(Put(v, p, leaf), p) == Some(leaf)
    decreases |p|
  {
    if p != [] {
      var fields := if v.Object? then v.fields else map[];
      PutThenLookup(if p[0] in fields then fields[p[0]] else Null, p[1..], leaf);
    }
  }

  lemma {:induction false} PutElsewhere(v: Value, p: Pointer, leaf: Value, q: Pointer)
    requires Diverge(p, q)
    requires forall t | t in q :: !IsArrayIndex(t)
    ensures Lookup(Put(v, p, leaf), q) == Lookup(v, q)
    decreases |p|
  {
    var i :| 0 <= i < |p| && i < |q| && p[i] != q[i] && p[..i] == q[..i];
    assert q[0] in q;
    if i > 0 {
      assert p[0] == p[..i][0] == q[..i][0] == q[0];
      assert p[1..][i - 1] != q[1..][i - 1];
      assert p[1..][..i - 1] == p[..i][1..] == q[..i][1..] == q[1..][..i - 1];
      var fields := if v.Object? then v.fields else map[];
      PutElsewhere(if p[0] in fields then fields[p[0]] else Null, p[1..], leaf, q[1..]);
    }
  }

  /** Wrapping to 64 bits and narrowing again never lets a value into, or out of, a small range. */
  lemma WrapKeepsRange(v: Value, lo: int, hi: int)
    requires v.IsInteger() && 0 <= lo && hi < TWO_63
    ensures lo <= v.ToInt64() <= hi <==> lo <= v.Mathematical() <= hi
    ensures lo <= v.ToInt64() <= hi ==> v.ToInt64() == v.Mathematical()
  {
  }

  lemma NarrowingKeeps(n: int, modulus: int)
    requires 0 <= n < modulus
    ensures n % modulus == n
  {
  }

  /** The wrapped value differs from the number by a multiple of 2^64. */
  lemma WrapIsCongruent(v: Value)
    requires v.IsInteger()
    ensures exists k: int :: v.ToInt64() == v.Mathematical() + k * TWO_64
  {
    if v.Unsigned? && TWO_63 <= v.u {
      assert v.ToInt64() == v.Mathematical() + -1 * TWO_64;
    } else {
      assert v.ToInt64() == v.Mathematical() + 0 * TWO_64;
    }
  }

  /** A number in the form of an array reference. */
  function Decimal(n: nat): string {
    var digit := [('0' as int + n % 10) as char];
    if n < 10 then digit else Decimal(n / 10) + digit
  }

  lemma {:induction false} DecimalIsIndex(n: nat)
    ensures IsArrayIndex(Decimal(n)) && DecimalValue(Decimal(n)) == n
    ensures Decimal(n)[0] == '0' ==> n == 0
  {
    var digit := [('0' as int + n % 10) as char];
    assert IsDigit(digit[0]);
    if n < 10 {
      assert digit[..0] == "";
    } else {
      DecimalIsIndex(n / 10);
      assert Decimal(n)[..|Decimal(n)| - 1] == Decimal(n / 10);
      assert forall i | 0 <= i < |Decimal(n / 10)| :: Decimal(n)[i] == Decimal(n / 10)[i];
    }
  }

  /** Nothing else is one: an index is the decimal form of the number it denotes. */
  lemma {:induction false} IndexIsDecimal(token: string)
    requires IsArrayIndex(token)
    ensures token == Decimal(DecimalValue(token))
    decreases |token|
  {
    var n := |token| - 1;
    var digit := token[n] as int - '0' as int;
    assert IsDigit(token[n]);
    assert token == token[..n] + [token[n]];
    if n == 0 {
      assert token[..0] == "";
      assert DecimalValue(token) == digit;
    } else {
      assert IsArrayIndex(token[..n]) && token[..n][0] != '0';
      IndexIsDecimal(token[..n]);
      DecimalIsIndex(DecimalValue(token[..n]));
      assert DecimalValue(token[..n]) != 0;
      assert DecimalValue(token) / 10 == DecimalValue(token[..n]) && DecimalValue(token) % 10 == digit;
    }
  }

  /** Array references select by position and name nothing beyond the end. */
  lemma ReferenceIntoArray(items: seq<Value>, n: nat)
    ensures Lookup(Array(items), [Decimal(n)]) == if n < |items| then Some(items[n]) else None
  {
    DecimalIsIndex(n);
    assert [Decimal(n)][1..] == [];
    if n < |items| { assert Lookup(items[n], []) == Some(items[n]); }
  }
}
