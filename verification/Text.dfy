/**
 Strings as the Go standard library sees them: the byte-wise order behind
 `sort.Strings`, decimal and hexadecimal digits, `strings.LastIndex` and
 `strings.TrimSpace`.  Text is a sequence of Unicode scalar values; the order of
 code points and the order of their UTF-8 encodings agree.
 */
module Text {

  // ---- Order and sorting ----------------------------------------------------

  predicate AtMost(a: string, b: string) {
    a == [] || (b != [] && (a[0] < b[0] || (a[0] == b[0] && AtMost(a[1..], b[1..]))))
  }

  predicate Sorted(s: seq<string>) {
    forall i, j | 0 <= i < j < |s| :: AtMost(s[i], s[j])
  }

  predicate Distinct<T(==)>(s: seq<T>) {
    forall i, j | 0 <= i < j < |s| :: s[i] != s[j]
  }

  lemma {:induction false} AtMostTotal(a: string, b: string)
    ensures AtMost(a, a)
    ensures AtMost(a, b) || AtMost(b, a)
    ensures AtMost(a, b) && AtMost(b, a) ==> a == b
    decreases |a|
  {
    if a != [] {
      AtMostTotal(a[1..], a[1..]);
      if b != [] {
        AtMostTotal(a[1..], b[1..]);
        assert a == [a[0]] + a[1..] && b == [b[0]] + b[1..];
      }
    }
  }

  lemma {:induction false} AtMostTransitive(a: string, b: string, c: string)
    requires AtMost(a, b) && AtMost(b, c)
    ensures AtMost(a, c)
    decreases |a|
  {
    if a != [] && a[0] == b[0] && b[0] == c[0] {
      AtMostTransitive(a[1..], b[1..], c[1..]);
    }
  }

  function Insert(x: string, s: seq<string>): seq<string> {
    if s == [] || AtMost(x, s[0]) then [x] + s else [s[0]] + Insert(x, s[1..])
  }

  /** What `sort.Strings` leaves in the slice. */
  function Sort(s: seq<string>): seq<string> {
    if s == [] then [] else Insert(s[0], Sort(s[1..]))
  }

  lemma {:induction false} InsertKeepsSorted(x: string, s: seq<string>)
    requires Sorted(s)
    ensures Sorted(Insert(x, s))
    ensures multiset(Insert(x, s)) == multiset(s) + multiset{x}
  {
    if s == [] {
    } else if AtMost(x, s[0]) {
      forall i | 0 <= i < |s| ensures AtMost(x, s[i]) {
        if i > 0 { AtMostTransitive(x, s[0], s[i]); }
      }
    } else {
      var rest := Insert(x, s[1..]);
      InsertKeepsSorted(x, s[1..]);
      assert s == [s[0]] + s[1..];
      AtMostTotal(x, s[0]);
      forall i | 0 <= i < |rest| ensures AtMost(s[0], rest[i]) {
        assert rest[i] in multiset(rest);
        assert rest[i] == x || rest[i] in s[1..];
      }
    }
  }

  /** The result is sorted and is a permutation of the argument. */
  lemma {:induction false} SortSorts(s: seq<string>)
    ensures Sorted(Sort(s))
    ensures multiset(Sort(s)) == multiset(s)
  {
    if s == [] {
    } else {
      SortSorts(s[1..]);
      InsertKeepsSorted(s[0], Sort(s[1..]));
      assert s == [s[0]] + s[1..];
    }
  }

  lemma SameElements(a: seq<string>, b: seq<string>, x: string)
    requires multiset(a) == multiset(b)
    ensures x in a <==> x in b
  {
    assert x in a <==> x in multiset(a);
    assert x in b <==> x in multiset(b);
  }

  lemma SortedHead(a: seq<string>, b: seq<string>)
    requires Sorted(a) && a != [] && b != [] && b[0] in a
    ensures AtMost(a[0], b[0])
  {
    var j :| 0 <= j < |a| && a[j] == b[0];
    AtMostTotal(a[0], a[0]);
  }

  lemma MultisetTail(a: seq<string>)
    requires a != []
    ensures multiset(a[1..]) == multiset(a) - multiset{a[0]}
  {
    assert a == [a[0]] + a[1..];
  }

  /** Sorting has one answer: whatever order a map is iterated in, and whatever algorithm sorts. */
  lemma {:induction false} SortedIsUnique(a: seq<string>, b: seq<string>)
    requires Sorted(a) && Sorted(b) && multiset(a) == multiset(b)
    ensures a == b
  {
    assert |multiset(a)| == |a| && |multiset(b)| == |b|;
    if a != [] {
      assert a[0] == b[0] by {
        SameElements(a, b, a[0]);
        SameElements(a, b, b[0]);
        SortedHead(a, b);
        SortedHead(b, a);
        AtMostTotal(a[0], b[0]);
      }
      MultisetTail(a);
      MultisetTail(b);
      SortedIsUnique(a[1..], b[1..]);
      assert a == [a[0]] + a[1..] && b == [b[0]] + b[1..];
    }
  }

  lemma CountedTwice<T>(s: seq<T>, i: nat, j: nat)
    requires i < j < |s| && s[i] == s[j]
    ensures multiset(s)[s[i]] >= 2
  {
    assert s == s[..j] + s[j..];
    assert s[..j][i] in multiset(s[..j]) && s[j..][0] in multiset(s[j..]);
  }

  lemma DistinctByCount<T>(s: seq<T>)
    requires forall x | x in s :: multiset(s)[x] == 1
    ensures Distinct(s)
  {
    forall i, j | 0 <= i < j < |s| ensures s[i] != s[j] {
      if s[i] == s[j] { CountedTwice(s, i, j); }
    }
  }

  lemma {:induction false} CountOfDistinct<T>(s: seq<T>, x: T)
    requires Distinct(s)
    ensures multiset(s)[x] == if x in s then 1 else 0
  {
    if s != [] {
      assert s == [s[0]] + s[1..];
      CountOfDistinct(s[1..], x);
    }
  }

  /** Sorting distinct strings gives a strictly sorted list with the same members. */
  lemma SortOfDistinct(s: seq<string>)
    requires Distinct(s)
    ensures Distinct(Sort(s)) && Sorted(Sort(s)) && |Sort(s)| == |s|
    ensures forall x :: x in Sort(s) <==> x in s
  {
    SortSorts(s);
    assert |multiset(s)| == |s| && |multiset(Sort(s))| == |Sort(s)|;
    forall x ensures x in Sort(s) <==> x in s { SameElements(s, Sort(s), x); }
    forall x | x in Sort(s) ensures multiset(Sort(s))[x] == 1 { CountOfDistinct(s, x); }
    DistinctByCount(Sort(s));
  }

  // ---- Digits ---------------------------------------------------------------

  predicate IsDigit(c: char) { '0' <= c <= '9' }

  function DigitValue(c: char): nat
    requires IsDigit(c)
  {
    c as int - '0' as int
  }

  function Digit(n: nat): (c: char)
    requires n < 10
    ensures IsDigit(c) && DigitValue(c) == n
  {
    ('0' as int + n) as char
  }

  predicate AllDigits(s: string) { forall i | 0 <= i < |s| :: IsDigit(s[i]) }

  /** The number a digit string denotes. */
  function DigitsValue(s: string): nat
    requires AllDigits(s)
  {
    if s == [] then 0 else 10 * DigitsValue(s[..|s|-1]) + DigitValue(s[|s|-1])
  }

  /** `%d` of a non-negative number. */
  function Decimal(n: nat): (s: string)
    ensures s != [] && AllDigits(s) && DigitsValue(s) == n
  {
    if n < 10 then
      var s := [Digit(n)];
      assert s[..0] == [];
      s
    else
      var front := Decimal(n / 10);
      var s := front + [Digit(n % 10)];
      assert s[..|s|-1] == front;
      s
  }

  // ---- Searching ------------------------------------------------------------

  /** `strings.LastIndex(s, ":")`: the last colon, or -1. */
  function LastColon(s: string): (i: int)
    ensures -1 <= i < |s|
    ensures i >= 0 ==> s[i] == ':'
    ensures forall j | i < j < |s| :: s[j] != ':'
  {
    if s == [] then -1
    else if s[|s|-1] == ':' then |s| - 1
    else LastColon(s[..|s|-1])
  }

  lemma {:induction false} LastColonOf(front: string, back: string)
    requires ':' !in back
    ensures LastColon(front + [':'] + back) == |front|
  {
    var s := front + [':'] + back;
    assert s[|front|] == ':';
    forall j | |front| < j < |s| ensures s[j] != ':' { assert s[j] == back[j - |front| - 1]; }
  }

  /** `unicode.IsSpace`. */
  predicate IsSpace(c: char) {
    var n := c as int;
    9 <= n <= 13 || n == 0x20 || n == 0x85 || n == 0xA0 || n == 0x1680 || 0x2000 <= n <= 0x200A
    || n == 0x2028 || n == 0x2029 || n == 0x202F || n == 0x205F || n == 0x3000
  }

  function TrimLeft(s: string): string {
    if s != [] && IsSpace(s[0]) then TrimLeft(s[1..]) else s
  }

  function TrimRight(s: string): string {
    if s != [] && IsSpace(s[|s|-1]) then TrimRight(s[..|s|-1]) else s
  }

  /** `strings.TrimSpace`. */
  function TrimSpace(s: string): string { TrimRight(TrimLeft(s)) }

  predicate AllSpace(s: string) { forall i | 0 <= i < |s| :: IsSpace(s[i]) }

  /** The middle begins and ends with something that is not a blank, and only blanks are around it. */
  predicate Surrounded(s: string, pre: string, middle: string, post: string) {
    s == pre + middle + post && AllSpace(pre) && AllSpace(post)
    && middle != "" && !IsSpace(middle[0]) && !IsSpace(middle[|middle| - 1])
  }

  lemma {:induction false} TrimLeftMeans(s: string) returns (pre: string)
    ensures s == pre + TrimLeft(s) && AllSpace(pre) && (TrimLeft(s) != "" ==> !IsSpace(TrimLeft(s)[0]))
  {
    if s == "" || !IsSpace(s[0]) {
      pre := "";
    } else {
      var rest := TrimLeftMeans(s[1..]);
      pre := [s[0]] + rest;
      assert s == [s[0]] + s[1..];
    }
  }

  lemma {:induction false} TrimRightMeans(s: string) returns (post: string)
    ensures s == TrimRight(s) + post && AllSpace(post) && (TrimRight(s) != "" ==> !IsSpace(TrimRight(s)[|TrimRight(s)| - 1]))
  {
    if s == "" || !IsSpace(s[|s| - 1]) {
      post := "";
    } else {
      var rest := TrimRightMeans(s[..|s| - 1]);
      post := rest + [s[|s| - 1]];
      assert s == s[..|s| - 1] + [s[|s| - 1]];
    }
  }

  lemma TrimSpaceMeans(s: string)
    ensures TrimSpace(s) == "" <==> AllSpace(s)
    ensures TrimSpace(s) != "" ==> exists pre, post :: Surrounded(s, pre, TrimSpace(s), post)
  {
    var pre := TrimLeftMeans(s);
    var left := TrimLeft(s);
    var post := TrimRightMeans(left);
    assert s == pre + TrimSpace(s) + post;
    if TrimSpace(s) == "" {
      assert s == pre + post;
    } else {
      assert left[0] == TrimSpace(s)[0];
      assert Surrounded(s, pre, TrimSpace(s), post);
      assert s[|pre|] == TrimSpace(s)[0];
    }
  }
}
