/**
 The change-detection digest: `HashSecretData` and `HashStringData` of
 `internal/resources/common.go`.  SHA-256 is a constant without a value, so every
 result here holds whatever function it is; where distinct texts must have
 distinct digests, the lemma says so as a hypothesis.
 */
module Hashing {
  import opened Api
  import opened Text

  /** Hex digest of the bytes written to the hasher. */
  const Sha256Hex: string -> string

  ghost predicate NoCollision(x: string, y: string) { Sha256Hex(x) == Sha256Hex(y) ==> x == y }

  function Entry(key: string, value: string): string { key + "=" + value + "\n" }

  /** The bytes written for the keys, in the order given. */
  function Entries(keys: seq<string>, data: StringMap): string
    requires forall k | k in keys :: k in data
  {
    if keys == [] then "" else Entry(keys[0], data[keys[0]]) + Entries(keys[1..], data)
  }

  lemma {:induction false} EntriesSnoc(keys: seq<string>, key: string, data: StringMap)
    requires forall k | k in keys + [key] :: k in data
    ensures (forall k | k in keys :: k in data) && key in data
    ensures Entries(keys + [key], data) == Entries(keys, data) + Entry(key, data[key])
  {
    forall k | k in keys ensures k in data { assert k in keys + [key]; }
    assert key in keys + [key];
    if keys == [] {
      assert keys + [key] == [key] && [key][1..] == [];
      assert Entry(key, data[key]) + "" == Entry(key, data[key]) == "" + Entry(key, data[key]);
    } else {
      assert (keys + [key])[1..] == keys[1..] + [key];
      EntriesSnoc(keys[1..], key, data);
      assert keys == [keys[0]] + keys[1..];
    }
  }

  /** One iteration order of a map's keys. */
  ghost predicate Enumerates(keys: seq<string>, data: StringMap) {
    Distinct(keys) && (forall k :: k in keys <==> k in data)
  }

  lemma SortEnumerates(keys: seq<string>, data: StringMap)
    requires Enumerates(keys, data)
    ensures Enumerates(Sort(keys), data)
  {
    SortOfDistinct(keys);
  }

  lemma {:induction false} EnumerationsArePermutations(a: seq<string>, b: seq<string>, data: StringMap)
    requires Enumerates(a, data) && Enumerates(b, data)
    ensures multiset(a) == multiset(b)
  {
    forall x ensures multiset(a)[x] == multiset(b)[x] {
      CountOfDistinct(a, x);
      CountOfDistinct(b, x);
    }
  }

  /** What is hashed does not depend on the order in which the map was iterated. */
  lemma OrderIndependent(a: seq<string>, b: seq<string>, data: StringMap)
    requires Enumerates(a, data) && Enumerates(b, data)
    ensures Sort(a) == Sort(b)
  {
    EnumerationsArePermutations(a, b, data);
    SortSorts(a);
    SortSorts(b);
    SortedIsUnique(Sort(a), Sort(b));
  }

  ghost function Order(keys: set<string>): (order: seq<string>)
    ensures Distinct(order) && forall k :: k in order <==> k in keys
  {
    if keys == {} then []
    else
      var k :| k in keys;
      var rest := Order(keys - {k});
      [k] + rest
  }

  /** The bytes hashed for a map. */
  ghost function Preimage(data: StringMap): string {
    var order := Order(data.Keys);
    SortEnumerates(order, data);
    Entries(Sort(order), data)
  }

  ghost function Digest(data: StringMap): string { Sha256Hex(Preimage(data)) }

  lemma PreimageOfOrder(order: seq<string>, data: StringMap)
    requires Enumerates(order, data)
    ensures Enumerates(Sort(order), data)
    ensures Preimage(data) == Entries(Sort(order), data)
  {
    SortEnumerates(order, data);
    OrderIndependent(order, Order(data.Keys), data);
  }

  /** `for k := range data`: the keys in an arbitrary order. */
  method CollectKeys(data: StringMap) returns (keys: seq<string>)
    ensures Enumerates(keys, data)
  {
    keys := [];
    var left := data.Keys;
    while left != {}
      invariant left <= data.Keys && Distinct(keys)
      invariant forall k :: k in keys <==> k in data && k !in left
      decreases |left|
    {
      var k :| k in left;
      keys, left := keys + [k], left - {k};
    }
  }

  /** The writes to the hasher, key by key. */
  method WriteEntries(keys: seq<string>, data: StringMap) returns (written: string)
    requires forall k | k in keys :: k in data
    ensures written == Entries(keys, data)
  {
    written := "";
    for i := 0 to |keys|
      invariant forall k | k in keys[..i] :: k in data
      invariant written == Entries(keys[..i], data)
    {
      assert keys[..i] + [keys[i]] == keys[..i + 1];
      EntriesSnoc(keys[..i], keys[i], data);
      written := written + Entry(keys[i], data[keys[i]]);
    }
    assert keys[..|keys|] == keys;
  }

  /** The digest of a map: its keys are collected, sorted and written. */
  method HashSecretData(data: StringMap) returns (hex: string)
    ensures hex == Digest(data)
  {
    var keys := CollectKeys(data);
    PreimageOfOrder(keys, data);
    var written := WriteEntries(Sort(keys), data);
    hex := Sha256Hex(written);
  }

  method HashStringData(data: StringMap) returns (hex: string)
    ensures hex == Digest(data)
  {
    var raw: StringMap := map[];
    var left := data.Keys;
    while left != {}
      invariant left <= data.Keys && raw.Keys == data.Keys - left
      invariant forall k | k in raw :: raw[k] == data[k]
      decreases |left|
    {
      var k :| k in left;
      raw, left := raw[k := data[k]], left - {k};
    }
    assert raw == data;
    hex := HashSecretData(raw);
  }

  // ---- When the bytes determine the map -------------------------------------

  lemma SingleKeyPreimage(key: string, value: string)
    ensures Preimage(map[key := value]) == Entry(key, value)
  {
    var data := map[key := value];
    assert Enumerates([key], data);
    PreimageOfOrder([key], data);
    assert Sort([key]) == [key];
    assert Entries([key], data) == Entry(key, value) + Entries([], data);
    assert Entry(key, value) + "" == Entry(key, value);
  }

  /** With one common key the bytes determine the value, whatever characters it holds. */
  lemma SingleKeyInjective(key: string, v: string, w: string)
    requires Preimage(map[key := v]) == Preimage(map[key := w])
    ensures v == w
  {
    SingleKeyPreimage(key, v);
    SingleKeyPreimage(key, w);
    var x, y := Entry(key, v), Entry(key, w);
    var n := |key| + 1;
    assert |x| == n + |v| + 1 && |y| == n + |w| + 1;
    assert x[n..n + |v|] == v && y[n..n + |w|] == w;
  }

  /** Text up to a separator it does not contain is determined by the whole. */
  lemma SplitAtSeparator(a: string, b: string, c: char, x: string, y: string)
    requires c !in a && c !in b && a + [c] + x == b + [c] + y
    ensures a == b && x == y
  {
    var s, t := a + [c] + x, b + [c] + y;
    assert s[|a|] == c && t[|b|] == c;
    assert forall i | 0 <= i < |a| :: s[i] == a[i] && s[i] != c;
    assert forall i | 0 <= i < |b| :: t[i] == b[i] && t[i] != c;
    assert s[..|a|] == a && t[..|b|] == b;
    assert s[|a| + 1..] == x && t[|b| + 1..] == y;
  }

  ghost predicate LineSafe(data: StringMap) {
    forall k | k in data :: '=' !in k && '\n' !in k && '\n' !in data[k]
  }

  lemma FirstEntryDetermined(k: string, v: string, x: string, l: string, w: string, y: string)
    requires '=' !in k && '=' !in l && '\n' !in v && '\n' !in w
    requires Entry(k, v) + x == Entry(l, w) + y
    ensures k == l && v == w && x == y
  {
    assert Entry(k, v) + x == k + ['='] + (v + ['\n'] + x);
    assert Entry(l, w) + y == l + ['='] + (w + ['\n'] + y);
    SplitAtSeparator(k, l, '=', v + ['\n'] + x, w + ['\n'] + y);
    SplitAtSeparator(v, w, '\n', x, y);
  }

  lemma {:induction false} EntriesInjective(ks: seq<string>, d: StringMap, ls: seq<string>, e: StringMap)
    requires forall k | k in ks :: k in d && '=' !in k && '\n' !in d[k]
    requires forall l | l in ls :: l in e && '=' !in l && '\n' !in e[l]
    requires Entries(ks, d) == Entries(ls, e)
    ensures ks == ls && forall k | k in ks :: d[k] == e[k]
  {
    if ks != [] && ls != [] {
      FirstEntryDetermined(ks[0], d[ks[0]], Entries(ks[1..], d), ls[0], e[ls[0]], Entries(ls[1..], e));
      EntriesInjective(ks[1..], d, ls[1..], e);
      assert ks == [ks[0]] + ks[1..] && ls == [ls[0]] + ls[1..];
    }
  }

  /** On maps whose keys have no '=' or newline and whose values have no newline, the bytes determine the map. */
  lemma LineSafeInjective(d: StringMap, e: StringMap)
    requires LineSafe(d) && LineSafe(e) && Preimage(d) == Preimage(e)
    ensures d == e
  {
    var ks, ls := Order(d.Keys), Order(e.Keys);
    PreimageOfOrder(ks, d);
    PreimageOfOrder(ls, e);
    EntriesInjective(Sort(ks), d, Sort(ls), e);
    assert d.Keys == e.Keys by {
      forall k ensures k in d <==> k in e { assert k in Sort(ks) <==> k in Sort(ls); }
    }
    forall k | k in d ensures d[k] == e[k] { assert k in Sort(ks); }
  }

  lemma TwoKeyPreimage(k: string, v: string, l: string, w: string)
    requires k != l && AtMost(k, l)
    ensures Preimage(map[k := v, l := w]) == Entry(k, v) + Entry(l, w)
  {
    var data := map[k := v, l := w];
    TwoKeysEnumerate(k, v, l, w);
    PreimageOfOrder([k, l], data);
    SortTwo(k, l);
    EntriesTwo(k, l, data);
  }

  lemma TwoKeysEnumerate(k: string, v: string, l: string, w: string)
    requires k != l
    ensures Enumerates([k, l], map[k := v, l := w])
  {
    var data := map[k := v, l := w];
    assert forall x :: x in data <==> x == k || x == l;
  }

  lemma SortTwo(k: string, l: string)
    requires AtMost(k, l)
    ensures Sort([k, l]) == [k, l]
  {
    assert [k, l][1..] == [l] && [l][1..] == [];
    assert Sort([]) == [];
    assert Sort([l]) == Insert(l, []) == [l];
    assert Insert(k, [l]) == [k] + [l];
  }

  lemma EntriesTwo(k: string, l: string, data: StringMap)
    requires k in data && l in data
    ensures Entries([k, l], data) == Entry(k, data[k]) + Entry(l, data[l])
  {
    assert [k, l][1..] == [l] && [l][1..] == [];
    assert Entries([l], data) == Entry(l, data[l]) + "";
    assert Entry(l, data[l]) + "" == Entry(l, data[l]);
  }

  /** Outside that domain they need not: every two-key map is imitated by a one-key map with a newline in its value. */
  lemma NewlineImitatesKey(k: string, v: string, l: string, w: string)
    requires k != l && AtMost(k, l)
    ensures var d, e := map[k := v + "\n" + l + "=" + w], map[k := v, l := w];
      d != e && Preimage(d) == Preimage(e)
  {
    var value := v + "\n" + l + "=" + w;
    SingleKeyPreimage(k, value);
    TwoKeyPreimage(k, v, l, w);
    assert Entry(k, value) == Entry(k, v) + Entry(l, w);
    assert l !in map[k := value] && l in map[k := v, l := w];
  }
}
