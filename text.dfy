/** The two pieces of Python string behaviour the model needs. */
module Text {

  /** Python's `sub in s` on strings: sub occurs somewhere in s as a contiguous run. */
  predicate Contains(s: string, sub: string) {
    exists k :: 0 <= k <= |s| - |sub| && OccursAt(s, sub, k)
  }

  predicate OccursAt(s: string, sub: string, k: nat)
    requires k + |sub| <= |s|
  {
    s[k..k + |sub|] == sub
  }

  function Digit(d: nat): (c: char)
    requires d < 10
  {
    ('0' as int + d) as char
  }

  /** Python's `str(n)` for a non-negative int (f-string formatting of `{n}`). */
  function Decimal(n: nat): (r: string)
    ensures |r| >= 1
    ensures forall c :: c in r ==> '0' <= c <= '9'
  {
    if n < 10 then [Digit(n)] else Decimal(n / 10) + [Digit(n % 10)]
  }
}
