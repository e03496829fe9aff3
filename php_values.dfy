/** The PHP values a decoded payment record is built from, reading nested array entries
    and converting a value to a string. */
module PhpValues {
  import opened Decimal

  /** A PHP value: null, a boolean, an integer, a string or an array with string keys. */
  datatype PhpValue =
    | Null
    | Bool(b: bool)
    | Int(i: int)
    | Str(s: string)
    | Arr(entries: map<string, PhpValue>)

  /** `$m[key]` on an array: the entry, or null when the key is unset (PHP also raises a notice). */
  function At(m: map<string, PhpValue>, key: string): PhpValue
  {
    if key in m then m[key] else Null
  }

  /** `$v[key]` on any value: indexing null or a scalar yields null. */
  function Index(v: PhpValue, key: string): PhpValue
  {
    if v.Arr? then At(v.entries, key) else Null
  }

  /** `(string)$i` for an integer. */
  function IntToString(i: int): (s: string)
    ensures |s| >= 1
  {
    if i < 0 then "-" + NatToString(-i) else NatToString(i)
  }

  /** PHP's string conversion, as done by `.` and `sprintf('%s')`. */
  function ToPhpString(v: PhpValue): string
  {
    match v
    case Null => ""
    case Bool(b) => if b then "1" else ""
    case Int(i) => IntToString(i)
    case Str(s) => s
    case Arr(_) => "Array"
  }

  /** The rendering starts with a minus exactly for negative integers. */
  lemma IntToStringSign(i: int)
    ensures IntToString(i)[0] == '-' <==> i < 0
  {
    if i >= 0 {
      assert IsDigit(NatToString(i)[0]);
    }
  }

  /** Integer rendering is injective, so a rendered id identifies the integer. */
  lemma IntToStringInjective(i: int, j: int)
    requires IntToString(i) == IntToString(j)
    ensures i == j
  {
    IntToStringSign(i);
    IntToStringSign(j);
    if i < 0 {
      assert IntToString(i)[1..] == NatToString(-i);
      assert IntToString(j)[1..] == NatToString(-j);
      NatToStringInjective(-i, -j);
    } else {
      NatToStringInjective(i, j);
    }
  }
}
