/**
 * Configuration files as `yaml.safe_load` hands them to the two admin
 * apps, after parsing: a document that is a mapping of top-level keys, an
 * empty or false value, or some other value. An account list holds entries
 * that are mappings of scalars, or something else.
 */
module Documents {
  import opened Base
  import opened Stamps

  /** A YAML scalar: null, a boolean, an integer or a string. */
  datatype Scalar = Null | Flag(b: bool) | Number(n: int) | Text(s: string)

  /** One item of a list: a mapping of scalars, or another kind of value. */
  datatype Entry = Dict(fields: map<string, Scalar>) | NotDict

  /** The value under a top-level key. */
  datatype Node = Leaf(scalar: Scalar) | Entries(items: seq<Entry>) | Nested

  /** The loaded document: a mapping, a value Python reads as false, or another value. */
  datatype Document = Root(keys: map<string, Node>) | Falsy | Other

  /** Python truthiness of a scalar. */
  predicate ScalarTruthy(v: Scalar)
  {
    match v
    case Null => false
    case Flag(b) => b
    case Number(n) => n != 0
    case Text(s) => s != ""
  }

  /** `str(n)` for a natural number: decimal digits without leading zeros. */
  function Decimal(n: nat): (r: string)
    ensures |r| >= 1 && AllDigits(r)
    ensures |r| > 1 ==> r[0] != '0'
  {
    if n < 10 then [DigitChar(n)] else Decimal(n / 10) + [DigitChar(n % 10)]
  }

  /** Reading the digits back gives the number. */
  lemma {:induction false} DecimalValue(n: nat)
    ensures DigitsValue(Decimal(n)) == n
  {
    if n >= 10 {
      DecimalValue(n / 10);
      var r := Decimal(n);
      assert r[..|r| - 1] == Decimal(n / 10);
    } else {
      assert Decimal(n)[..0] == "";
    }
  }

  /** `str(v)` for a scalar. */
  function StrOf(v: Scalar): (r: string)
    ensures v.Text? ==> r == v.s
    ensures v.Number? ==> r != "" && (v.n < 0 <==> r[0] == '-')
  {
    match v
    case Null => "None"
    case Flag(b) => if b then "True" else "False"
    case Number(n) => if n < 0 then "-" + Decimal(-n) else Decimal(n)
    case Text(s) => s
  }

  /** Two integers print alike only when they are equal. */
  lemma StrOfNumberInjective(a: int, b: int)
    requires StrOf(Number(a)) == StrOf(Number(b))
    ensures a == b
  {
    if a < 0 {
      assert StrOf(Number(a))[1..] == Decimal(-a);
      assert StrOf(Number(b))[1..] == Decimal(-b);
      DecimalValue(-a);
      DecimalValue(-b);
    } else {
      DecimalValue(a);
      DecimalValue(b);
    }
  }
}
