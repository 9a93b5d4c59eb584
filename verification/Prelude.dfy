/** Small vocabulary shared by the other modules. */
module Prelude {
  datatype Option<+T> = None | Some(value: T)

  datatype Result<+T, +E> = Ok(value: T) | Err(error: E)

  type byte = b: int | 0 <= b < 256

  const U32_MAX := 0xFFFF_FFFF

  function Max(a: int, b: int): int {
    if a < b then b else a
  }

  function Min(a: int, b: int): int {
    if a < b then a else b
  }

  lemma ConcatAssociates<T>(a: seq<T>, b: seq<T>, c: seq<T>)
    ensures a + (b + c) == a + b + c
  {
  }

  function Flatten<T>(parts: seq<seq<T>>): seq<T> {
    if parts == [] then [] else parts[0] + Flatten(parts[1..])
  }

  lemma {:induction false} FlattenAppend<T>(a: seq<seq<T>>, b: seq<seq<T>>)
    ensures Flatten(a + b) == Flatten(a) + Flatten(b)
  {
    if a == [] {
      assert a + b == b;
    } else {
      assert (a + b)[1..] == a[1..] + b;
      FlattenAppend(a[1..], b);
    }
  }

  lemma FlattenSnoc<T>(a: seq<seq<T>>, x: seq<T>)
    ensures Flatten(a + [x]) == Flatten(a) + x
  {
    FlattenAppend(a, [x]);
    assert Flatten([x]) == x + Flatten([]) == x;
  }

  function Join(parts: seq<string>, sep: string): string {
    if parts == [] then ""
    else if |parts| == 1 then parts[0]
    else parts[0] + sep + Join(parts[1..], sep)
  }

  lemma {:induction false} JoinSnoc(parts: seq<string>, sep: string, last: string)
    requires parts != []
    ensures Join(parts + [last], sep) == Join(parts, sep) + sep + last
  {
    assert (parts + [last])[1..] == parts[1..] + [last];
    if |parts| > 1 {
      JoinSnoc(parts[1..], sep, last);
    } else {
      assert parts[1..] + [last] == [last];
    }
  }

  /** The first position of `x`, or the length when it does not occur. */
  function IndexOf<T(==)>(s: seq<T>, x: T): (k: nat)
    ensures k <= |s|
    ensures k < |s| ==> s[k] == x
  {
    if s == [] || s[0] == x then 0 else 1 + IndexOf(s[1..], x)
  }

  lemma {:induction false} IndexOfIsFirst<T>(s: seq<T>, x: T)
    ensures x !in s[..IndexOf(s, x)]
    ensures IndexOf(s, x) == |s| <==> x !in s
  {
    if s != [] && s[0] != x {
      IndexOfIsFirst(s[1..], x);
      assert s == [s[0]] + s[1..];
      assert s[..IndexOf(s, x)] == [s[0]] + s[1..][..IndexOf(s[1..], x)];
    }
  }

  lemma {:induction false} IndexOfAppend<T>(a: seq<T>, b: seq<T>, x: T)
    ensures IndexOf(a + b, x) == if IndexOf(a, x) < |a| then IndexOf(a, x) else |a| + IndexOf(b, x)
  {
    if a == [] {
      assert a + b == b;
    } else {
      assert (a + b)[1..] == a[1..] + b;
      IndexOfAppend(a[1..], b, x);
    }
  }

  predicate Ascending(s: seq<nat>) {
    forall i, j :: 0 <= i < j < |s| ==> s[i] < s[j]
  }

  lemma {:induction false} LeastExists(s: set<nat>, candidate: nat)
    requires candidate in s
    ensures exists least :: least in s && forall x :: x in s ==> least <= x
    decreases candidate
  {
    if smaller :| smaller in s && smaller < candidate {
      LeastExists(s, smaller);
    }
  }

  /** The elements of a set of numbers in ascending order, as an ordered map lists its keys. */
  function SortedKeys(s: set<nat>): (keys: seq<nat>)
    ensures forall i :: 0 <= i < |keys| ==> keys[i] in s
    decreases |s|
  {
    if s == {} then []
    else
      var candidate :| candidate in s;
      LeastExists(s, candidate);
      var least: nat :| least in s && forall x :: x in s ==> least <= x;
      [least] + SortedKeys(s - {least})
  }

  lemma {:induction false} SortedKeysAscend(s: set<nat>)
    ensures Ascending(SortedKeys(s))
    decreases |s|
  {
    if s != {} {
      var keys := SortedKeys(s);
      var rest := SortedKeys(s - {keys[0]});
      assert keys == [keys[0]] + rest;
      SortedKeysAscend(s - {keys[0]});
      assert forall i :: 0 <= i < |rest| ==> keys[0] < rest[i];
    }
  }

  lemma {:induction false} SortedKeysAreAll(s: set<nat>, x: nat)
    requires x in s
    ensures x in SortedKeys(s)
    decreases |s|
  {
    var least := SortedKeys(s)[0];
    if x != least {
      SortedKeysAreAll(s - {least}, x);
    }
  }

  // ----- Text -----

  /** Characters with the Unicode `White_Space` property. */
  predicate IsWhitespace(c: char) {
    var code := c as int;
    || 0x9 <= code <= 0xD || code == 0x20 || code == 0x85 || code == 0xA0 || code == 0x1680
    || 0x2000 <= code <= 0x200A || code == 0x2028 || code == 0x2029 || code == 0x202F || code == 0x205F
    || code == 0x3000
  }

  predicate IsBlank(text: string) {
    forall i :: 0 <= i < |text| ==> IsWhitespace(text[i])
  }

  /** The order of strings: by the first character that differs, a prefix first. */
  predicate TextLess(a: string, b: string) {
    b != "" && (a == "" || a[0] < b[0] || (a[0] == b[0] && TextLess(a[1..], b[1..])))
  }

  lemma {:induction false} TextLessIsTotal(a: string, b: string)
    ensures TextLess(a, b) ==> !TextLess(b, a) && a != b
    ensures TextLess(a, b) || a == b || TextLess(b, a)
  {
    if a != "" && b != "" && a[0] == b[0] {
      TextLessIsTotal(a[1..], b[1..]);
      assert a == [a[0]] + a[1..] && b == [b[0]] + b[1..];
    }
  }

  lemma SameStart(a: string, b: string, k: nat)
    requires 0 < k <= |a| && k <= |b| && a[..k] == b[..k]
    ensures a[0] == b[0]
  {
    assert a[0] == a[..k][0] && b[0] == b[..k][0];
  }

  /** At the first place where two strings differ the smaller has the smaller character, or ends there. */
  lemma {:induction false} TextLessMeans(a: string, b: string)
    ensures TextLess(a, b) <==>
              exists k :: 0 <= k <= |a| && k < |b| && a[..k] == b[..k] && (k < |a| ==> a[k] < b[k])
  {
    if b != "" && a != "" && a[0] == b[0] {
      TextLessMeans(a[1..], b[1..]);
      if TextLess(a[1..], b[1..]) {
        var k :| 0 <= k <= |a[1..]| && k < |b[1..]| && a[1..][..k] == b[1..][..k]
                 && (k < |a[1..]| ==> a[1..][k] < b[1..][k]);
        assert a[..k + 1] == [a[0]] + a[1..][..k] && b[..k + 1] == [b[0]] + b[1..][..k];
      }
      if k :| 0 <= k <= |a| && k < |b| && a[..k] == b[..k] && (k < |a| ==> a[k] < b[k]) {
        assert k > 0;
        assert a[1..][..k - 1] == a[..k][1..] && b[1..][..k - 1] == b[..k][1..];
      }
    } else {
      if k :| 0 <= k <= |a| && k < |b| && a[..k] == b[..k] && (k < |a| ==> a[k] < b[k]) {
        if k > 0 {
          SameStart(a, b, k);
        }
      }
      if TextLess(a, b) {
        assert a[..0] == b[..0];
      }
    }
  }

  lemma {:induction false} TextLessIsTransitive(a: string, b: string, c: string)
    requires TextLess(a, b) && TextLess(b, c)
    ensures TextLess(a, c)
  {
    if a != "" && a[0] == b[0] && b[0] == c[0] {
      TextLessIsTransitive(a[1..], b[1..], c[1..]);
    }
  }

  function DigitOf(d: nat): char
    requires d < 10
  {
    ('0' as int + d) as char
  }

  function Decimal(n: nat): string {
    if n < 10 then [DigitOf(n)] else Decimal(n / 10) + [DigitOf(n % 10)]
  }

  lemma DecimalIsNotEmpty(n: nat)
    ensures Decimal(n) != ""
  {
  }

  lemma {:induction false} DecimalIsDigits(n: nat)
    ensures forall k :: 0 <= k < |Decimal(n)| ==> '0' <= Decimal(n)[k] <= '9'
  {
    if n >= 10 {
      DecimalIsDigits(n / 10);
    }
  }

  /** The number that digits stand for. */
  function ReadDecimal(digits: string): int {
    if digits == "" then 0
    else 10 * ReadDecimal(digits[..|digits| - 1]) + (digits[|digits| - 1] as int - '0' as int)
  }

  lemma {:induction false} DecimalReadsBack(n: nat)
    ensures ReadDecimal(Decimal(n)) == n
    ensures n > 0 ==> Decimal(n)[0] != '0'
  {
    if n < 10 {
      assert ReadDecimal("") == 0 && [DigitOf(n)][..0] == "";
    } else {
      DecimalReadsBack(n / 10);
      assert Decimal(n)[..|Decimal(n)| - 1] == Decimal(n / 10);
    }
  }

  lemma {:induction false} DecimalIsInjective(m: nat, n: nat)
    ensures Decimal(m) == Decimal(n) ==> m == n
  {
    var a, b := Decimal(m), Decimal(n);
    if a == b {
      assert a[|a| - 1] == DigitOf(m % 10) && b[|b| - 1] == DigitOf(n % 10);
      DecimalIsNotEmpty(m / 10);
      DecimalIsNotEmpty(n / 10);
      if m >= 10 && n >= 10 {
        assert a[..|a| - 1] == Decimal(m / 10) && b[..|b| - 1] == Decimal(n / 10);
        DecimalIsInjective(m / 10, n / 10);
      }
    }
  }
}
