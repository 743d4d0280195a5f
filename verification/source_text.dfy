/**
 * How the generators turn values into Java source text: `String.format`'s
 * `%s` and `%d` (and string concatenation) print a null reference as
 * "null", and every generated Java file opens with a package statement.
 */
module SourceText {
  import opened Wrappers
  import opened JavaString

  /** `%s` of a String, or `"" + s`: a null reference prints as "null". */
  function Text(s: Option<string>): (r: string)
    ensures s.Some? ==> r == s.value
    ensures s.None? ==> r == "null"
  {
    match s
    case None => "null"
    case Some(v) => v
  }

  /**
   * `%d` of an Integer: "null" for null, otherwise decimal digits denoting
   * the number, led by a minus sign exactly when it is negative.
   */
  function IntegerText(n: Option<int>): (r: string)
    ensures forall k :: 0 <= k < |r| ==> r[k] in "-0123456789nul"
    ensures n.None? ==> r == "null"
    ensures n.Some? ==> DecimalValue(r) == n.value && ('-' in r <==> n.value < 0)
  {
    match n
    case None => "null"
    case Some(v) => IntToDecimalChars(v); IntToDecimalValue(v); IntToDecimal(v)
  }

  lemma IntToDecimalChars(v: int)
    ensures forall k :: 0 <= k < |IntToDecimal(v)| ==> IntToDecimal(v)[k] in "-0123456789nul"
  {
    var r := IntToDecimal(v);
    forall k | 0 <= k < |r|
      ensures r[k] in "-0123456789nul"
    {
      var digits := if v < 0 then NatToDecimal(-v) else NatToDecimal(v);
      if v < 0 && k > 0 {
        assert r[k] == digits[k - 1];
      }
      assert '0' <= r[k] <= '9' || r[k] == '-';
    }
  }

  /** `s.replace("-", "_")`: the database name derived from a service name. */
  function DatabaseName(serviceName: string): (r: string)
    ensures |r| == |serviceName| && '-' !in r
  {
    ReplaceChar(serviceName, '-', '_')
  }

  /** The statement `package <name>;`. */
  function PackageStatement(name: string): string {
    "package " + name + ";"
  }

  /** A Java file in package `name`: the package statement, a newline, then the body. */
  function Declare(name: string, body: string): string {
    PackageStatement(name) + "\n" + body
  }

  /** A declared file opens with its package statement and holds its body. */
  lemma DeclareSpec(name: string, body: string)
    ensures StartsWith(Declare(name, body), PackageStatement(name))
    ensures Contains(Declare(name, body), body)
  {
    StartsWithConcat(PackageStatement(name), "\n" + body);
    ContainsSuffix(PackageStatement(name) + "\n", body);
    assert PackageStatement(name) + "\n" + body == PackageStatement(name) + ("\n" + body);
  }

  /** What a declared file holds, it holds wherever it sits in the body. */
  lemma DeclareContains(name: string, body: string, part: string)
    requires Contains(body, part)
    ensures Contains(Declare(name, body), part)
  {
    DeclareSpec(name, body);
    ContainsTransitive(Declare(name, body), body, part);
  }
}
