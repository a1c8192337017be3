/** Scalar values as they appear in a configuration file, a submitted form or a
    fetched row, and Python's `str()` on them. */
module Values {

  /** The scalars the model lets a profile entry hold: None, a bool, an int
      or a str. (A YAML document can also hold floats, dates and nested
      values; those are not represented.) */
  datatype Value = Null | Bool(b: bool) | Int(i: int) | Str(s: string)

  function DigitChar(d: nat): char
    requires d < 10
  {
    "0123456789"[d]
  }

  /** Decimal digits of `n`, most significant first, without leading zeros. */
  function NatToString(n: nat): (digits: string)
    ensures |digits| > 0 && (|digits| > 1 ==> digits[0] != '0')
    ensures forall k :: 0 <= k < |digits| ==> '0' <= digits[k] <= '9'
    decreases n
  {
    if n < 10 then [DigitChar(n)] else NatToString(n / 10) + [DigitChar(n % 10)]
  }

  /** Python's `str()`. */
  function Render(v: Value): (r: string)
    ensures v.Null? ==> r == "None"
    ensures v.Bool? ==> r == (if v.b then "True" else "False")
    ensures v.Str? ==> r == v.s
    ensures v.Int? ==> |r| > 0 && (r[0] == '-' <==> v.i < 0)
    ensures v.Int? && v.i >= 0 ==> r == NatToString(v.i)
    ensures v.Int? && v.i < 0 ==> r == "-" + NatToString(-v.i)
  {
    match v
    case Null => "None"
    case Bool(b) => if b then "True" else "False"
    case Int(i) => if i < 0 then "-" + NatToString(-i) else NatToString(i)
    case Str(s) => s
  }

  /** `'*' * len(str(v))`. */
  function Mask(v: Value): string {
    seq(|Render(v)|, _ => '*')
  }
}
