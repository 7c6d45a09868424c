/** Shared result types, searching, decimal numerals, and names not yet taken. */
module Prelude {

  datatype Option<+T> = None | Some(value: T)

  /** A value, or the message of the exception the source raises. */
  datatype Result<+T> = Success(value: T) | Failure(error: string)

  /** `not text.strip()`, for ASCII white space. */
  predicate Blank(s: string) {
    forall k :: 0 <= k < |s| ==> s[k] in " \t\n\r"
  }

  /** The first row that satisfies a WHERE clause. */
  function Find<T>(rows: seq<T>, p: T -> bool): (found: Option<nat>)
    ensures found.Some? ==> found.value < |rows| && p(rows[found.value]) && forall k :: 0 <= k < found.value ==>
      !p(rows[k])
    ensures found.None? ==> forall k :: 0 <= k < |rows| ==> !p(rows[k])
  {
    if rows == [] then None
    else
      var n := |rows| - 1;
      match Find(rows[..n], p)
      case Some(k) => Some(k)
      case None => if p(rows[n]) then Some(n) else None
  }

  function Digit(d: nat): char
    requires d < 10
  {
    "0123456789"[d]
  }

  /** `str(n)`. */
  function Decimal(n: nat): string {
    if n < 10 then [Digit(n)] else Decimal(n / 10) + [Digit(n % 10)]
  }

  lemma {:induction false} DecimalIsDigits(n: nat)
    ensures Decimal(n) != "" && forall k :: 0 <= k < |Decimal(n)| ==> '0' <= Decimal(n)[k] <= '9'
  {
    if n >= 10 { DecimalIsDigits(n / 10); }
  }

  lemma LastDigit(n: nat)
    ensures |Decimal(n)| >= 1 && Decimal(n)[|Decimal(n)| - 1] == Digit(n % 10)
    ensures n >= 10 <==> |Decimal(n)| > 1
    ensures n >= 10 ==> Decimal(n)[..|Decimal(n)| - 1] == Decimal(n / 10)
  {
    DecimalIsDigits(n / 10);
  }

  lemma SameDigit(x: nat, y: nat)
    requires x < 10 && y < 10 && Digit(x) == Digit(y)
    ensures x == y
  {
  }

  lemma {:induction false} DecimalInjective(m: nat, n: nat)
    requires Decimal(m) == Decimal(n)
    ensures m == n
  {
    hide Decimal, Digit;
    LastDigit(m);
    LastDigit(n);
    SameDigit(m % 10, n % 10);
    if m >= 10 { DecimalInjective(m / 10, n / 10); }
  }

  lemma {:induction false} SubsetSize<T>(small: set<T>, large: set<T>)
    requires small <= large
    ensures |small| <= |large|
  {
    if small != {} {
      var x :| x in small;
      SubsetSize(small - {x}, large - {x});
    }
  }

  /** The first n names a counter hands out. */
  function Names(prefix: string, n: nat): set<string> {
    if n == 0 then {} else Names(prefix, n - 1) + {prefix + Decimal(n)}
  }

  /** The counter never hands out a name twice. */
  lemma {:induction false} NamesAreDistinct(prefix: string, n: nat)
    ensures |Names(prefix, n)| == n
    ensures forall k :: k > n ==> prefix + Decimal(k) !in Names(prefix, n)
  {
    if n > 0 {
      NamesAreDistinct(prefix, n - 1);
      forall k: nat | k > n ensures prefix + Decimal(k) != prefix + Decimal(n) {
        if prefix + Decimal(k) == prefix + Decimal(n) {
          assert (prefix + Decimal(k))[|prefix|..] == Decimal(k) && (prefix + Decimal(n))[|prefix|..] == Decimal(n);
          DecimalInjective(k, n);
        }
      }
    }
  }

  /** Counts up from 1 to a name not yet taken. As each name is different, it stops by |taken| + 1. */
  method FirstFree(prefix: string, taken: set<string>) returns (number: nat)
    ensures 1 <= number <= |taken| + 1
    ensures prefix + Decimal(number) !in taken
    ensures Names(prefix, number - 1) <= taken
  {
    number := 1;
    while prefix + Decimal(number) in taken
      invariant 1 <= number && Names(prefix, number - 1) <= taken
      decreases |taken| + 1 - number
    {
      number := number + 1;
      NamesAreDistinct(prefix, number - 1);
      SubsetSize(Names(prefix, number - 1), taken);
    }
    NamesAreDistinct(prefix, number - 1);
    SubsetSize(Names(prefix, number - 1), taken);
  }
}
