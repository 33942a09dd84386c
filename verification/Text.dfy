/** Numbers as decimal text, the order of strings, and parts separated by commas. */
module Text {

  // ----- Decimal numbers -----

  function Digit(d: nat): char
    requires d < 10
  {
    '0' + d as char
  }

  function PrintNat(n: nat): string {
    if n < 10 then [Digit(n)] else PrintNat(n / 10) + [Digit(n % 10)]
  }

  predicate IsDigit(c: char) { '0' <= c <= '9' }

  predicate StartsWithDigit(s: string) { s != "" && IsDigit(s[0]) }

  /** Reads as many digits as there are. */
  function ParseDigits(s: string, value: nat): (r: (nat, string))
    ensures |r.1| <= |s| && !StartsWithDigit(r.1)
    ensures StartsWithDigit(s) ==> |r.1| < |s|
  {
    if StartsWithDigit(s) then ParseDigits(s[1..], 10 * value + (s[0] as nat - '0' as nat)) else (value, s)
  }

  lemma {:induction false} ParsePrintedNat(n: nat, rest: string)
    ensures StartsWithDigit(PrintNat(n)) && StartsWithDigit(PrintNat(n) + rest)
    ensures ParseDigits(PrintNat(n) + rest, 0) == ParseDigits(rest, n)
  {
    if n >= 10 {
      var last := [Digit(n % 10)];
      ParsePrintedNat(n / 10, last + rest);
      assert PrintNat(n) + rest == PrintNat(n / 10) + (last + rest);
      assert (last + rest)[1..] == rest;
    } else {
      assert ([Digit(n)] + rest)[1..] == rest;
    }
  }

  // ----- Prefixes -----

  predicate StartsWith(s: string, word: string) {
    |s| >= |word| && forall i :: 0 <= i < |word| ==> s[i] == word[i]
  }

  // ----- Sorted keys -----

  /** The order of strings by their characters; on UTF-8 it is the order of the bytes. */
  predicate Before(a: string, b: string) {
    if b == "" then false
    else if a == "" then true
    else a[0] < b[0] || (a[0] == b[0] && Before(a[1..], b[1..]))
  }

  lemma {:induction false} BeforeIsTotal(a: string, b: string)
    ensures a == b || Before(a, b) || Before(b, a)
    ensures !(Before(a, b) && Before(b, a))
    ensures Before(a, b) ==> a != b
  {
    if a != "" && b != "" {
      BeforeIsTotal(a[1..], b[1..]);
      assert a == [a[0]] + a[1..] && b == [b[0]] + b[1..];
    }
  }

  lemma {:induction false} BeforeIsTransitive(a: string, b: string, c: string)
    requires Before(a, b) && Before(b, c)
    ensures Before(a, c)
  {
    if a != "" && a[0] == b[0] == c[0] {
      BeforeIsTransitive(a[1..], b[1..], c[1..]);
    }
  }

  predicate Sorted(keys: seq<string>) {
    forall i, j :: 0 <= i < j < |keys| ==> Before(keys[i], keys[j])
  }

  /** The keys, in increasing order. */
  function SortedKeys(keys: set<string>): (sorted: seq<string>)
    ensures Sorted(sorted) && forall k :: k in sorted <==> k in keys
  {
    if keys == {} then []
    else
      FirstExists(keys);
      FirstIsUnique(keys);
      var k :| k in keys && IsFirst(k, keys);
      [k] + SortedKeys(keys - {k})
  }

  predicate IsFirst(k: string, keys: set<string>) {
    forall x :: x in keys - {k} ==> Before(k, x)
  }

  lemma {:induction false} FirstExists(keys: set<string>)
    requires keys != {}
    ensures exists k :: k in keys && IsFirst(k, keys)
  {
    var x :| x in keys;
    if keys == {x} {
      assert IsFirst(x, keys);
    } else {
      FirstExists(keys - {x});
      var k :| k in keys - {x} && IsFirst(k, keys - {x});
      BeforeIsTotal(x, k);
      var first := if Before(x, k) then x else k;
      forall y | y in keys - {first} ensures Before(first, y) {
        if y != x && y != k {
          assert y in keys - {x} - {k};
          if first == x {
            BeforeIsTransitive(x, k, y);
          }
        }
      }
      assert first in keys && IsFirst(first, keys);
    }
  }

  lemma FirstIsUnique(keys: set<string>)
    ensures forall a, b :: a in keys && IsFirst(a, keys) && b in keys && IsFirst(b, keys) ==> a == b
  {
    forall a, b | a in keys && IsFirst(a, keys) && b in keys && IsFirst(b, keys) && a != b ensures false {
      assert b in keys - {a} && a in keys - {b};
      BeforeIsTotal(a, b);
    }
  }

  /** There is one way to sort keys. */
  lemma {:induction false} SortedIsUnique(xs: seq<string>, ys: seq<string>)
    requires Sorted(xs) && Sorted(ys) && forall k :: k in xs <==> k in ys
    ensures xs == ys
  {
    assert xs != [] ==> xs[0] in ys;
    assert ys != [] ==> ys[0] in xs;
    if xs != [] {
      var x, y := xs[0], ys[0];
      BeforeIsTotal(x, y);
      assert x == y;
      forall k ensures k in xs[1..] <==> k in ys[1..] {
        TailOfSorted(xs, k);
        TailOfSorted(ys, k);
      }
      SortedIsUnique(xs[1..], ys[1..]);
      assert xs == [x] + xs[1..] && ys == [y] + ys[1..];
    }
  }

  lemma TailOfSorted(xs: seq<string>, k: string)
    requires xs != [] && Sorted(xs)
    ensures k in xs[1..] <==> k in xs && k != xs[0]
  {
    BeforeIsTotal(xs[0], k);
  }

  /** Puts `key` where it belongs. */
  method Insert(sorted: seq<string>, key: string) returns (inserted: seq<string>)
    requires Sorted(sorted) && key !in sorted
    ensures Sorted(inserted) && forall k :: k in inserted <==> k in sorted || k == key
  {
    var i := 0;
    while i < |sorted| && Before(sorted[i], key)
      invariant 0 <= i <= |sorted|
      invariant forall j :: 0 <= j < i ==> Before(sorted[j], key)
    {
      i := i + 1;
    }
    forall j | i <= j < |sorted| ensures Before(key, sorted[j]) {
      BeforeIsTotal(key, sorted[i]);
      if i < j {
        BeforeIsTransitive(key, sorted[i], sorted[j]);
      }
    }
    inserted := sorted[..i] + [key] + sorted[i..];
    assert sorted == sorted[..i] + sorted[i..];
  }

  /** The keys come in no particular order and are sorted. */
  method SortKeys(keys: set<string>) returns (sorted: seq<string>)
    ensures sorted == SortedKeys(keys)
  {
    sorted := [];
    var left := keys;
    while left != {}
      invariant Sorted(sorted) && left <= keys
      invariant forall k :: k in keys - left <==> k in sorted
      decreases left
    {
      var k :| k in left;
      sorted := Insert(sorted, k);
      left := left - {k};
    }
    SortedIsUnique(sorted, SortedKeys(keys));
  }

  // ----- Parts separated by commas -----

  /** The parts, separated by commas. */
  function Join(parts: seq<string>): string {
    if parts == [] then ""
    else if |parts| == 1 then parts[0]
    else parts[0] + "," + Join(parts[1..])
  }

  lemma {:induction false} JoinSnoc(parts: seq<string>, part: string)
    ensures Join(parts + [part]) == Join(parts) + (if parts == [] then "" else ",") + part
  {
    if |parts| > 1 {
      JoinSnoc(parts[1..], part);
      assert (parts + [part])[1..] == parts[1..] + [part];
    }
  }

  /** The first of the remaining parts, and the rest. */
  lemma JoinFrom(parts: seq<string>, i: nat)
    requires i < |parts|
    ensures Join(parts[i..]) == parts[i] + (if i + 1 < |parts| then "," + Join(parts[i + 1..]) else "")
  {
    assert parts[i..][1..] == parts[i + 1..];
  }
}
