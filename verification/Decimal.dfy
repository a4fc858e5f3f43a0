/** Decimal numerals and strings.Join with "-", as in the tags "exit-7" and "balancer-0-2-7". */
module Decimal {

  predicate IsDigit(c: char) {
    '0' <= c <= '9'
  }

  ghost predicate AllDigits(s: string) {
    forall k | 0 <= k < |s| :: IsDigit(s[k])
  }

  function Digit(d: nat): (c: char)
    requires d < 10
    ensures IsDigit(c) && c as int - '0' as int == d
  {
    ('0' as int + d) as char
  }

  /** strconv.Itoa on a non-negative number. */
  function Itoa(n: nat): (s: string)
    ensures |s| > 0 && AllDigits(s)
  {
    if n < 10 then [Digit(n)] else Itoa(n / 10) + [Digit(n % 10)]
  }

  function Value(s: string): int {
    if s == [] then 0 else 10 * Value(s[..|s| - 1]) + (s[|s| - 1] as int - '0' as int)
  }

  lemma {:induction false} ValueOfItoa(n: nat)
    ensures Value(Itoa(n)) == n
  {
    if n < 10 {
      assert Itoa(n)[..0] == [];
    } else {
      ValueOfItoa(n / 10);
      assert Itoa(n)[..|Itoa(n)| - 1] == Itoa(n / 10);
    }
  }

  lemma ItoaInjective(m: nat, n: nat)
    ensures Itoa(m) == Itoa(n) <==> m == n
  {
    ValueOfItoa(m);
    ValueOfItoa(n);
  }

  function Dashed(ns: seq<nat>): string {
    if ns == [] then "" else if |ns| == 1 then Itoa(ns[0]) else Itoa(ns[0]) + "-" + Dashed(ns[1..])
  }

  /** A run of digits that ends at a dash or at the end of the text is determined by the text. */
  lemma FirstRun(x: string, r: string, y: string, t: string)
    requires AllDigits(x) && AllDigits(y) && x + r == y + t
    requires (r == "" || r[0] == '-') && (t == "" || t[0] == '-')
    ensures x == y && r == t
  {
    var z := x + r;
    assert |x| < |z| ==> z[|x|] == '-';
    assert |y| < |z| ==> (y + t)[|y|] == '-';
    assert forall k | 0 <= k < |y| :: IsDigit((y + t)[k]);
    assert forall k | 0 <= k < |x| :: IsDigit(z[k]);
    assert |x| == |y|;
    assert x == (x + r)[..|x|] && y == (y + t)[..|y|];
    assert r == (x + r)[|x|..] && t == (y + t)[|y|..];
  }

  /** What follows the first number. */
  function Rest(ns: seq<nat>): string {
    if |ns| < 2 then "" else "-" + Dashed(ns[1..])
  }

  lemma DashedSplits(ns: seq<nat>)
    requires |ns| > 0
    ensures Dashed(ns) == Itoa(ns[0]) + Rest(ns)
    ensures Rest(ns) == "" || Rest(ns)[0] == '-'
  {
    hide Itoa;
    if |ns| == 1 {
      assert Itoa(ns[0]) + "" == Itoa(ns[0]);
    } else {
      assert Itoa(ns[0]) + "-" + Dashed(ns[1..]) == Itoa(ns[0]) + ("-" + Dashed(ns[1..]));
    }
  }

  lemma {:induction false} DashedInjective(a: seq<nat>, b: seq<nat>)
    requires |a| > 0 && |b| > 0 && Dashed(a) == Dashed(b)
    ensures a == b
    decreases |a|
  {
    hide Itoa, Dashed;
    DashedSplits(a);
    DashedSplits(b);
    FirstRun(Itoa(a[0]), Rest(a), Itoa(b[0]), Rest(b));
    ItoaInjective(a[0], b[0]);
    if |a| > 1 {
      assert Rest(a)[1..] == Dashed(a[1..]) && Rest(b)[1..] == Dashed(b[1..]);
      DashedInjective(a[1..], b[1..]);
    }
    assert a == [a[0]] + a[1..] && b == [b[0]] + b[1..];
  }
}
