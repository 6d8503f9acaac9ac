/**
 * String helpers shared by the renderers: Go's byte-wise string order
 * (what `sort.Strings` sorts by), sorted key lists of a context map,
 * `strconv.Itoa` on non-negative numbers, separator joins and ASCII
 * lower-casing.
 */
module Text {

  /** Go's `a < b` on strings: lexicographic, a proper prefix comes first. */
  predicate Less(a: string, b: string)
  {
    if |a| == 0 then |b| > 0
    else if |b| == 0 then false
    else if a[0] != b[0] then a[0] < b[0]
    else Less(a[1..], b[1..])
  }

  lemma {:induction false} LessIrreflexive(a: string)
    ensures !Less(a, a)
  {
    if |a| > 0 { LessIrreflexive(a[1..]); }
  }

  lemma {:induction false} LessTransitive(a: string, b: string, c: string)
    requires Less(a, b) && Less(b, c)
    ensures Less(a, c)
  {
    if |a| > 0 && |b| > 0 && |c| > 0 && a[0] == b[0] && b[0] == c[0] {
      LessTransitive(a[1..], b[1..], c[1..]);
    }
  }

  lemma {:induction false} LessTotal(a: string, b: string)
    requires a != b
    ensures Less(a, b) || Less(b, a)
  {
    if |a| > 0 && |b| > 0 && a[0] == b[0] {
      assert a == [a[0]] + a[1..] && b == [b[0]] + b[1..];
      LessTotal(a[1..], b[1..]);
    }
  }

  lemma {:induction false} LessAsymmetric(a: string, b: string)
    requires Less(a, b)
    ensures !Less(b, a)
  {
    if Less(b, a) {
      LessTransitive(a, b, a);
      LessIrreflexive(a);
    }
  }

  /** Every element is strictly below every later one (hence no duplicates). */
  predicate StrictlySorted(s: seq<string>)
  {
    forall i, j :: 0 <= i < j < |s| ==> Less(s[i], s[j])
  }

  /** `x` is the smallest member of `s` in Go's string order. */
  ghost predicate IsMin(x: string, s: set<string>)
  {
    x in s && forall y :: y in s && y != x ==> Less(x, y)
  }

  lemma {:induction false} MinExists(s: set<string>)
    requires s != {}
    ensures exists x :: IsMin(x, s)
    decreases |s|
  {
    var y :| y in s;
    if s == {y} {
      assert IsMin(y, s);
    } else {
      MinExists(s - {y});
      var m :| IsMin(m, s - {y});
      if Less(m, y) {
        assert IsMin(m, s);
      } else {
        LessTotal(m, y);
        forall z | z in s && z != y ensures Less(y, z) {
          if z != m { LessTransitive(y, m, z); }
        }
        assert IsMin(y, s);
      }
    }
  }

  /** The keys of a context map in the order `sort.Strings` leaves them. */
  ghost function SortedSeq(keys: set<string>): (r: seq<string>)
    ensures StrictlySorted(r)
    ensures |r| == |keys|
    ensures forall k :: k in r <==> k in keys
    decreases |keys|
  {
    if keys == {} then []
    else
      MinExists(keys);
      var m :| IsMin(m, keys);
      var rest := SortedSeq(keys - {m});
      assert forall i :: 0 <= i < |rest| ==> Less(m, rest[i]) by {
        forall i | 0 <= i < |rest| ensures Less(m, rest[i]) { assert rest[i] in keys - {m}; }
      }
      [m] + rest
  }

  /** A strictly sorted list is determined by the set of its elements. */
  lemma {:induction false} SortedUnique(a: seq<string>, b: seq<string>)
    requires StrictlySorted(a) && StrictlySorted(b)
    requires |a| == |b|
    requires forall k :: k in a <==> k in b
    ensures a == b
  {
    if |a| > 0 {
      if a[0] != b[0] {
        assert a[0] in b;
        var j :| 0 <= j < |b| && b[j] == a[0];
        assert b[0] in a;
        var i :| 0 <= i < |a| && a[i] == b[0];
        assert j > 0 && i > 0;
        assert Less(b[0], a[0]) && Less(a[0], b[0]);
        LessAsymmetric(a[0], b[0]);
      }
      forall k ensures k in a[1..] <==> k in b[1..] {
        if k in a[1..] {
          var i :| 1 <= i < |a| && a[i] == k;
          LessIrreflexive(a[0]);
          assert k != a[0] && k in b;
          var j :| 0 <= j < |b| && b[j] == k;
          assert j != 0 && b[1..][j - 1] == k;
        }
        if k in b[1..] {
          var i :| 1 <= i < |b| && b[i] == k;
          LessIrreflexive(b[0]);
          assert k != b[0] && k in a;
          var j :| 0 <= j < |a| && a[j] == k;
          assert j != 0 && a[1..][j - 1] == k;
        }
      }
      SortedUnique(a[1..], b[1..]);
    }
  }

  /** Inserts `x` into a strictly sorted list that does not contain it. */
  function Insert(s: seq<string>, x: string): (r: seq<string>)
    requires StrictlySorted(s) && x !in s
    ensures StrictlySorted(r)
    ensures |r| == |s| + 1
    ensures forall k :: k in r <==> k in s || k == x
  {
    if s == [] then [x]
    else if Less(x, s[0]) then
      assert forall j :: 0 < j < |s| ==> Less(x, s[j]) by {
        forall j | 0 < j < |s| ensures Less(x, s[j]) { LessTransitive(x, s[0], s[j]); }
      }
      [x] + s
    else
      LessTotal(x, s[0]);
      var t := Insert(s[1..], x);
      assert forall j :: 0 <= j < |t| ==> Less(s[0], t[j]) by {
        forall j | 0 <= j < |t| ensures Less(s[0], t[j]) {
          assert t[j] in s[1..] || t[j] == x;
        }
      }
      [s[0]] + t
  }

  /**
   * Collects the keys of `m` in whatever order the map hands them out
   * (the choice below plays the part of Go's randomised map iteration)
   * and then sorts them; the result never depends on that order.
   */
  method SortKeys(m: map<string, string>) returns (keys: seq<string>)
    ensures keys == SortedSeq(m.Keys)
  {
    var collected := CollectKeys(m);
    keys := [];
    for i := 0 to |collected|
      invariant StrictlySorted(keys) && |keys| == i
      invariant forall k :: k in keys <==> k in collected[..i]
    {
      assert collected[i] !in collected[..i];
      keys := Insert(keys, collected[i]);
      assert collected[..i + 1] == collected[..i] + [collected[i]];
    }
    assert collected[..|collected|] == collected;
    SortedUnique(keys, SortedSeq(m.Keys));
  }

  /** The `for k := range m` loop: every key once, in an order the map chooses. */
  method CollectKeys(m: map<string, string>) returns (collected: seq<string>)
    ensures |collected| == |m.Keys|
    ensures forall k :: k in collected <==> k in m.Keys
    ensures forall i, j :: 0 <= i < j < |collected| ==> collected[i] != collected[j]
  {
    collected := [];
    var rest := m.Keys;
    while rest != {}
      invariant rest <= m.Keys
      invariant |collected| + |rest| == |m.Keys|
      invariant forall k :: k in collected <==> k in m.Keys && k !in rest
      invariant forall i, j :: 0 <= i < j < |collected| ==> collected[i] != collected[j]
      decreases |rest|
    {
      var k :| k in rest;
      assert |rest - {k}| == |rest| - 1;
      collected := collected + [k];
      rest := rest - {k};
    }
  }

  /** `strings.Join(parts, sep)`. */
  function Join(parts: seq<string>, sep: string): (r: string)
    ensures |parts| == 1 ==> r == parts[0]
  {
    if |parts| == 0 then ""
    else if |parts| == 1 then parts[0]
    else parts[0] + sep + Join(parts[1..], sep)
  }

  lemma {:induction false} JoinSnoc(parts: seq<string>, x: string, sep: string)
    requires |parts| > 0
    ensures Join(parts + [x], sep) == Join(parts, sep) + sep + x
  {
    if |parts| == 1 {
      assert parts + [x] == [parts[0], x];
    } else {
      assert (parts + [x])[1..] == parts[1..] + [x];
      JoinSnoc(parts[1..], x, sep);
    }
  }

  /** Growing a prefix of `parts` by one element adds the separator and that element. */
  lemma JoinPrefixStep(parts: seq<string>, i: nat, sep: string)
    requires 0 < i < |parts|
    ensures Join(parts[..i + 1], sep) == Join(parts[..i], sep) + sep + parts[i]
  {
    assert parts[..i + 1] == parts[..i] + [parts[i]];
    JoinSnoc(parts[..i], parts[i], sep);
  }

  /** One decimal digit. */
  function Digit(d: nat): (c: char)
    requires d < 10
    ensures '0' <= c <= '9'
  {
    "0123456789"[d]
  }

  /** `strconv.Itoa(n)` for a non-negative `n`: decimal, no leading zeros. */
  function Itoa(n: nat): (r: string)
    ensures |r| > 0
    ensures forall i :: 0 <= i < |r| ==> '0' <= r[i] <= '9'
    ensures |r| > 1 ==> r[0] != '0'
  {
    if n < 10 then [Digit(n)] else Itoa(n / 10) + [Digit(n % 10)]
  }

  /** Reads back a string of decimal digits. */
  function ParseDecimal(s: string): nat
    requires forall i :: 0 <= i < |s| ==> '0' <= s[i] <= '9'
  {
    if |s| == 0 then 0
    else ParseDecimal(s[..|s| - 1]) * 10 + ((s[|s| - 1] as int) - ('0' as int))
  }

  lemma {:induction false} ItoaRoundTrip(n: nat)
    ensures ParseDecimal(Itoa(n)) == n
  {
    if n >= 10 {
      ItoaRoundTrip(n / 10);
      var s := Itoa(n);
      assert s[..|s| - 1] == Itoa(n / 10);
    }
  }

  /** Different numbers print differently, so line numbers never collide. */
  lemma ItoaInjective(m: nat, n: nat)
    requires Itoa(m) == Itoa(n)
    ensures m == n
  {
    ItoaRoundTrip(m);
    ItoaRoundTrip(n);
  }

  /** ASCII lower-casing of one character. */
  function LowerChar(c: char): (r: char)
    ensures 'A' <= c <= 'Z' ==> r as int == c as int + 32
    ensures !('A' <= c <= 'Z') ==> r == c
  {
    if 'A' <= c <= 'Z' then (c as int + 32) as char else c
  }

  /** `strings.ToLower`, restricted to ASCII letters. */
  function ToLower(s: string): (r: string)
    ensures |r| == |s|
    ensures forall i :: 0 <= i < |s| ==> r[i] == LowerChar(s[i])
  {
    if |s| == 0 then "" else [LowerChar(s[0])] + ToLower(s[1..])
  }

  /** The number of bytes `c` takes in UTF-8. */
  function RuneLen(c: char): (n: nat)
    ensures 1 <= n <= 4
    ensures n == 1 <==> c as int < 0x80
  {
    if c as int < 0x80 then 1
    else if c as int < 0x800 then 2
    else if c as int < 0x1_0000 then 3
    else 4
  }

  /** `len(s)` of a Go string: the number of bytes of `s` in UTF-8. */
  function Utf8Len(s: string): (n: nat)
    ensures |s| <= n <= 4 * |s|
    ensures n == |s| <==> forall i :: 0 <= i < |s| ==> s[i] as int < 0x80
  {
    if |s| == 0 then 0
    else
      var init := s[..|s| - 1];
      assert forall i :: 0 <= i < |init| ==> init[i] == s[i];
      Utf8Len(init) + RuneLen(s[|s| - 1])
  }

  /** The bytes of a concatenation are the bytes of its parts. */
  lemma {:induction false} Utf8LenAppend(a: string, b: string)
    ensures Utf8Len(a + b) == Utf8Len(a) + Utf8Len(b)
    decreases |b|
  {
    if |b| > 0 {
      var init := b[..|b| - 1];
      assert (a + b)[..|a + b| - 1] == a + init;
      Utf8LenAppend(a, init);
    } else {
      assert a + b == a;
    }
  }
}
