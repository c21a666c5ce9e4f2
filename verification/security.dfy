/** Telegram Web App `initData` handling: the canonical data-check string,
    the HMAC-SHA256 signature check and the last-wins dictionary view of the
    pairs.  The query string arrives already split into (key, value) pairs in
    wire order (what `parse_qsl` returns); the cryptographic primitives are
    parameters. */
module Security {
  import opened Common

  datatype Pair = Pair(key: string, value: string)

  type Bytes = seq<bv8>

  /** UTF-8 encoding, HMAC-SHA256 (key first, message second) and hex digest. */
  datatype Primitives = Primitives(
    utf8: string -> Bytes,
    hmacSha256: (Bytes, Bytes) -> Bytes,
    hexDigest: Bytes -> string)

  // ---------------------------------------------------------------------------
  // Python's ordering of `str` keys: lexicographic by code point.

  predicate KeyLe(a: string, b: string)
    decreases |a|
  {
    |a| == 0 || (|b| != 0 && (a[0] < b[0] || (a[0] == b[0] && KeyLe(a[1..], b[1..]))))
  }

  lemma {:induction false} KeyLeReflexive(a: string)
    ensures KeyLe(a, a)
    decreases |a|
  {
    if |a| != 0 { KeyLeReflexive(a[1..]); }
  }

  lemma {:induction false} KeyLeTotal(a: string, b: string)
    ensures KeyLe(a, b) || KeyLe(b, a)
    decreases |a|
  {
    if |a| != 0 && |b| != 0 && a[0] == b[0] { KeyLeTotal(a[1..], b[1..]); }
  }

  lemma {:induction false} KeyLeTransitive(a: string, b: string, c: string)
    requires KeyLe(a, b) && KeyLe(b, c)
    ensures KeyLe(a, c)
    decreases |a|
  {
    if |a| != 0 && a[0] == b[0] && b[0] == c[0] { KeyLeTransitive(a[1..], b[1..], c[1..]); }
  }

  lemma {:induction false} KeyLeAntisymmetric(a: string, b: string)
    requires KeyLe(a, b) && KeyLe(b, a)
    ensures a == b
    decreases |a|
  {
    if |a| != 0 {
      KeyLeAntisymmetric(a[1..], b[1..]);
      assert a == [a[0]] + a[1..] && b == [b[0]] + b[1..];
    }
  }

  ghost predicate Sorted(s: seq<Pair>) {
    forall i, j :: 0 <= i < j < |s| ==> KeyLe(s[i].key, s[j].key)
  }

  // ---------------------------------------------------------------------------
  // `sorted(pairs, key=lambda kv: kv[0])`: a stable sort on the key alone.

  /** Puts `x` in front of the first element whose key is not below its own. */
  function Insert(x: Pair, s: seq<Pair>): (r: seq<Pair>)
    ensures multiset(r) == multiset(s) + multiset{x}
  {
    if s == [] then [x]
    else if KeyLe(x.key, s[0].key) then [x] + s
    else
      assert s == [s[0]] + s[1..];
      [s[0]] + Insert(x, s[1..])
  }

  function SortByKey(ps: seq<Pair>): (r: seq<Pair>)
    ensures multiset(r) == multiset(ps)
  {
    if ps == [] then []
    else
      assert ps == [ps[0]] + ps[1..];
      Insert(ps[0], SortByKey(ps[1..]))
  }

  /** The pairs of `s` whose key is `k`, in their order in `s`. */
  function KeyFilter(s: seq<Pair>, k: string): (r: seq<Pair>)
    ensures forall p :: p in r <==> p in s && p.key == k
  {
    if s == [] then []
    else (if s[0].key == k then [s[0]] else []) + KeyFilter(s[1..], k)
  }

  lemma {:induction false} KeyFilterAppend(a: seq<Pair>, b: seq<Pair>, k: string)
    ensures KeyFilter(a + b, k) == KeyFilter(a, k) + KeyFilter(b, k)
  {
    if a != [] {
      assert (a + b)[1..] == a[1..] + b;
      KeyFilterAppend(a[1..], b, k);
    } else {
      assert a + b == b;
    }
  }

  lemma {:induction false} InsertSorted(x: Pair, s: seq<Pair>)
    requires Sorted(s)
    ensures Sorted(Insert(x, s))
  {
    if s == [] {
    } else if KeyLe(x.key, s[0].key) {
      var r := [x] + s;
      forall i, j | 0 <= i < j < |r| ensures KeyLe(r[i].key, r[j].key) {
        if i == 0 && j > 1 { KeyLeTransitive(x.key, s[0].key, s[j - 1].key); }
      }
    } else {
      KeyLeTotal(x.key, s[0].key);
      InsertSorted(x, s[1..]);
      var t := Insert(x, s[1..]);
      var r := [s[0]] + t;
      forall i, j | 0 <= i < j < |r| ensures KeyLe(r[i].key, r[j].key) {
        if i == 0 {
          assert r[j] in multiset(t);
          if r[j] != x {
            assert r[j] in multiset(s[1..]);
            var m :| 0 <= m < |s[1..]| && s[1..][m] == r[j];
            assert s[m + 1] == r[j];
          }
        }
      }
    }
  }

  lemma {:induction false} SortSorted(ps: seq<Pair>)
    ensures Sorted(SortByKey(ps))
  {
    if ps != [] {
      SortSorted(ps[1..]);
      InsertSorted(ps[0], SortByKey(ps[1..]));
    }
  }

  lemma ConsKeyFilter(p: Pair, s: seq<Pair>, k: string)
    ensures KeyFilter([p] + s, k) == (if p.key == k then [p] else []) + KeyFilter(s, k)
  {
    assert ([p] + s)[1..] == s;
  }

  lemma {:induction false} InsertKeyFilterSame(x: Pair, s: seq<Pair>)
    ensures KeyFilter(Insert(x, s), x.key) == [x] + KeyFilter(s, x.key)
  {
    var k := x.key;
    if s == [] {
      ConsKeyFilter(x, [], k);
    } else if KeyLe(k, s[0].key) {
      ConsKeyFilter(x, s, k);
    } else {
      KeyLeReflexive(k);
      assert s[0].key != k;
      InsertKeyFilterSame(x, s[1..]);
      ConsKeyFilter(s[0], Insert(x, s[1..]), k);
      assert s == [s[0]] + s[1..];
      ConsKeyFilter(s[0], s[1..], k);
    }
  }

  lemma {:induction false} InsertKeyFilterOther(x: Pair, s: seq<Pair>, k: string)
    requires x.key != k
    ensures KeyFilter(Insert(x, s), k) == KeyFilter(s, k)
  {
    if s == [] {
      ConsKeyFilter(x, [], k);
    } else if KeyLe(x.key, s[0].key) {
      ConsKeyFilter(x, s, k);
    } else {
      InsertKeyFilterOther(x, s[1..], k);
      ConsKeyFilter(s[0], Insert(x, s[1..]), k);
      assert s == [s[0]] + s[1..];
      ConsKeyFilter(s[0], s[1..], k);
    }
  }

  lemma InsertKeyFilter(x: Pair, s: seq<Pair>, k: string)
    ensures KeyFilter(Insert(x, s), k) == (if x.key == k then [x] else []) + KeyFilter(s, k)
  {
    if x.key == k {
      InsertKeyFilterSame(x, s);
    } else {
      InsertKeyFilterOther(x, s, k);
      assert [] + KeyFilter(s, k) == KeyFilter(s, k);
    }
  }

  /** Stability: for every key, the pairs with that key keep their wire order. */
  lemma {:induction false} SortKeyFilter(ps: seq<Pair>, k: string)
    ensures KeyFilter(SortByKey(ps), k) == KeyFilter(ps, k)
  {
    if ps != [] {
      SortKeyFilter(ps[1..], k);
      InsertKeyFilter(ps[0], SortByKey(ps[1..]), k);
    }
  }

  lemma SortedHeadLeast(s: seq<Pair>, k: string)
    requires Sorted(s) && KeyFilter(s, k) != []
    ensures s != [] && KeyLe(s[0].key, k)
  {
    var p := KeyFilter(s, k)[0];
    assert p in KeyFilter(s, k);
    var j :| 0 <= j < |s| && s[j] == p;
    if j == 0 { KeyLeReflexive(k); }
  }

  lemma HeadInOwnFilter(s: seq<Pair>)
    requires s != []
    ensures KeyFilter(s, s[0].key) != [] && KeyFilter(s, s[0].key)[0] == s[0]
  {
  }

  lemma {:induction false} KeyFilterAbsent(s: seq<Pair>, k: string)
    requires forall i :: 0 <= i < |s| ==> s[i].key != k
    ensures KeyFilter(s, k) == []
  {
    if s != [] {
      KeyFilterAbsent(s[1..], k);
    }
  }

  /** Two sorted sequences with the same per-key subsequences start with the same pair. */
  lemma SortedSameHead(a: seq<Pair>, b: seq<Pair>)
    requires Sorted(a) && Sorted(b) && a != [] && b != []
    requires KeyFilter(a, a[0].key) == KeyFilter(b, a[0].key)
    requires KeyFilter(a, b[0].key) == KeyFilter(b, b[0].key)
    ensures a[0] == b[0]
  {
    var ka, kb := a[0].key, b[0].key;
    HeadInOwnFilter(a);
    HeadInOwnFilter(b);
    SortedHeadLeast(b, ka);
    SortedHeadLeast(a, kb);
    KeyLeAntisymmetric(ka, kb);
    assert a[0] == KeyFilter(a, ka)[0] == KeyFilter(b, kb)[0] == b[0];
  }

  lemma TailFilters(a: seq<Pair>, b: seq<Pair>, k: string)
    requires a != [] && b != [] && a[0] == b[0]
    requires KeyFilter(a, k) == KeyFilter(b, k)
    ensures KeyFilter(a[1..], k) == KeyFilter(b[1..], k)
  {
    var head := if a[0].key == k then [a[0]] else [];
    assert KeyFilter(a, k) == head + KeyFilter(a[1..], k);
    assert KeyFilter(b, k) == head + KeyFilter(b[1..], k);
    assert (head + KeyFilter(a[1..], k))[|head|..] == KeyFilter(a[1..], k);
    assert (head + KeyFilter(b[1..], k))[|head|..] == KeyFilter(b[1..], k);
  }

  /** A sequence sorted by key is determined by its per-key subsequences: so a
      stable sort has exactly one possible result. */
  lemma {:induction false} SortUnique(a: seq<Pair>, b: seq<Pair>)
    requires Sorted(a) && Sorted(b)
    requires forall k :: KeyFilter(a, k) == KeyFilter(b, k)
    ensures a == b
    decreases |a|
  {
    if a == [] || b == [] {
      if a != [] { HeadInOwnFilter(a); assert false; }
      if b != [] { HeadInOwnFilter(b); assert false; }
    } else {
      SortedSameHead(a, b);
      forall k ensures KeyFilter(a[1..], k) == KeyFilter(b[1..], k) {
        TailFilters(a, b, k);
      }
      SortUnique(a[1..], b[1..]);
      assert a == [a[0]] + a[1..] && b == [b[0]] + b[1..];
    }
  }

  // ---------------------------------------------------------------------------
  // The data-check string.

  /** The comprehension's `if k != "hash"`: every `hash` pair goes, not only the first. */
  function RemoveHash(s: seq<Pair>): (r: seq<Pair>)
    ensures forall p :: p in r <==> p in s && p.key != "hash"
  {
    if s == [] then []
    else (if s[0].key == "hash" then [] else [s[0]]) + RemoveHash(s[1..])
  }

  lemma {:induction false} RemoveHashSorted(s: seq<Pair>)
    requires Sorted(s)
    ensures Sorted(RemoveHash(s))
  {
    if s != [] {
      RemoveHashSorted(s[1..]);
      var t := RemoveHash(s[1..]);
      if s[0].key != "hash" {
        forall q | q in t ensures KeyLe(s[0].key, q.key) {
          var m :| 0 <= m < |s[1..]| && s[1..][m] == q;
          assert s[m + 1] == q;
        }
        PrependSorted(s[0], t);
      }
    }
  }

  lemma PrependSorted(p: Pair, t: seq<Pair>)
    requires Sorted(t) && forall q :: q in t ==> KeyLe(p.key, q.key)
    ensures Sorted([p] + t)
  {
    var r := [p] + t;
    forall i, j | 0 <= i < j < |r| ensures KeyLe(r[i].key, r[j].key) {
      if i == 0 {
        assert r[j] == t[j - 1];
        assert r[j] in t;
      } else {
        assert r[i] == t[i - 1] && r[j] == t[j - 1];
      }
    }
  }

  lemma {:induction false} RemoveHashKeyFilter(s: seq<Pair>, k: string)
    ensures KeyFilter(RemoveHash(s), k) == if k == "hash" then [] else KeyFilter(s, k)
  {
    if s != [] {
      RemoveHashKeyFilter(s[1..], k);
      var head := if s[0].key == "hash" then [] else [s[0]];
      KeyFilterAppend(head, RemoveHash(s[1..]), k);
      if head != [] { assert head[1..] == []; }
    }
  }

  /** `sorted(...)` first, then the `hash` pairs are dropped, as the comprehension does. */
  function CheckPairs(ps: seq<Pair>): seq<Pair> {
    RemoveHash(SortByKey(ps))
  }

  /** The pairs that enter the check string: no `hash` key at all, in nondecreasing key
      order, and for every other key exactly that key's pairs in their wire order. */
  lemma CheckPairsCanonical(ps: seq<Pair>)
    ensures forall p :: p in CheckPairs(ps) <==> p in ps && p.key != "hash"
    ensures Sorted(CheckPairs(ps))
    ensures forall k :: KeyFilter(CheckPairs(ps), k) == if k == "hash" then [] else KeyFilter(ps, k)
  {
    SortSorted(ps);
    RemoveHashSorted(SortByKey(ps));
    forall k ensures KeyFilter(CheckPairs(ps), k) == if k == "hash" then [] else KeyFilter(ps, k) {
      RemoveHashKeyFilter(SortByKey(ps), k);
      SortKeyFilter(ps, k);
    }
    forall p ensures p in CheckPairs(ps) <==> p in ps && p.key != "hash" {
      assert p in SortByKey(ps) <==> p in multiset(SortByKey(ps));
    }
  }

  /** Two pair lists with the same non-`hash` pairs per key give the same check pairs. */
  lemma CheckPairsDetermined(a: seq<Pair>, b: seq<Pair>)
    requires forall k :: k != "hash" ==> KeyFilter(a, k) == KeyFilter(b, k)
    ensures CheckPairs(a) == CheckPairs(b)
  {
    CheckPairsCanonical(a);
    CheckPairsCanonical(b);
    SortUnique(CheckPairs(a), CheckPairs(b));
  }

  function Render(p: Pair): string {
    p.key + "=" + p.value
  }

  function RenderAll(ps: seq<Pair>): (r: seq<string>)
    ensures |r| == |ps| && forall i :: 0 <= i < |ps| ==> r[i] == Render(ps[i])
  {
    seq(|ps|, i requires 0 <= i < |ps| => Render(ps[i]))
  }

  /** `data_check_string`: `"\n".join(f"{k}={v}" for k, v in sorted(pairs) if k != "hash")`. */
  function DataCheckString(ps: seq<Pair>): string {
    JoinLines(RenderAll(CheckPairs(ps)))
  }

  /** The check string is empty exactly when every pair is a `hash` pair. */
  lemma DataCheckStringEmpty(ps: seq<Pair>)
    ensures DataCheckString(ps) == "" <==> forall i :: 0 <= i < |ps| ==> ps[i].key == "hash"
  {
    var cp := CheckPairs(ps);
    CheckPairsCanonical(ps);
    JoinLinesEmpty(RenderAll(cp));
    if |cp| >= 1 {
      assert '=' in Render(cp[0]);
      assert cp[0] in ps;
    }
    if exists i :: 0 <= i < |ps| && ps[i].key != "hash" {
      var i :| 0 <= i < |ps| && ps[i].key != "hash";
      assert ps[i] in cp;
    }
  }

  /** With no line breaks inside keys and values, splitting the check string on
      `"\n"` gives back one `k=v` line per check pair: the separator never trails. */
  lemma DataCheckStringLines(ps: seq<Pair>)
    requires forall i :: 0 <= i < |ps| ==> '\n' !in ps[i].key && '\n' !in ps[i].value
    requires exists i :: 0 <= i < |ps| && ps[i].key != "hash"
    ensures SplitLines(DataCheckString(ps)) == RenderAll(CheckPairs(ps))
  {
    var cp := CheckPairs(ps);
    CheckPairsCanonical(ps);
    var i :| 0 <= i < |ps| && ps[i].key != "hash";
    assert ps[i] in cp;
    forall j | 0 <= j < |cp| ensures '\n' !in Render(cp[j]) {
      assert cp[j] in ps;
      var m :| 0 <= m < |ps| && ps[m] == cp[j];
      assert Render(cp[j]) == cp[j].key + "=" + cp[j].value;
    }
    SplitJoin(RenderAll(cp));
  }

  /** The `hash` pairs, wherever they stand, do not enter the check string. */
  lemma DataCheckStringIgnoresHash(ps: seq<Pair>)
    ensures DataCheckString(ps) == DataCheckString(RemoveHash(ps))
  {
    forall k | k != "hash" ensures KeyFilter(ps, k) == KeyFilter(RemoveHash(ps), k) {
      RemoveHashKeyFilter(ps, k);
    }
    CheckPairsDetermined(ps, RemoveHash(ps));
  }

  ghost predicate DistinctKeys(ps: seq<Pair>) {
    forall i, j :: 0 <= i < j < |ps| ==> ps[i].key != ps[j].key
  }

  lemma {:induction false} DistinctKeyFilter(s: seq<Pair>, k: string)
    requires DistinctKeys(s)
    ensures |KeyFilter(s, k)| <= 1
  {
    if s != [] {
      assert DistinctKeys(s[1..]) by {
        forall i, j | 0 <= i < j < |s[1..]| ensures s[1..][i].key != s[1..][j].key {
          assert s[1..][i] == s[i + 1] && s[1..][j] == s[j + 1];
        }
      }
      DistinctKeyFilter(s[1..], k);
      if s[0].key == k {
        forall i | 0 <= i < |s[1..]| ensures s[1..][i].key != k {
          assert s[1..][i] == s[i + 1];
        }
        KeyFilterAbsent(s[1..], k);
      }
    }
  }

  lemma MultisetTwice(s: seq<Pair>, x: Pair)
    requires multiset(s)[x] >= 2
    ensures exists i, j :: 0 <= i < j < |s| && s[i] == x && s[j] == x
  {
    if s[0] == x {
      assert s == [s[0]] + s[1..];
      assert multiset(s[1..])[x] >= 1;
      assert x in s[1..];
      var m :| 0 <= m < |s[1..]| && s[1..][m] == x;
      assert s[m + 1] == x;
    } else {
      assert s == [s[0]] + s[1..];
      MultisetTwice(s[1..], x);
      var i, j :| 0 <= i < j < |s[1..]| && s[1..][i] == x && s[1..][j] == x;
      assert s[i + 1] == x && s[j + 1] == x;
    }
  }

  lemma PermutationKeepsDistinct(a: seq<Pair>, b: seq<Pair>)
    requires DistinctKeys(a) && multiset(a) == multiset(b)
    ensures DistinctKeys(b)
  {
    forall i, j | 0 <= i < j < |b| ensures b[i].key != b[j].key {
      if b[i].key == b[j].key {
        assert b[i] in multiset(a) && b[j] in multiset(a);
        var ia :| 0 <= ia < |a| && a[ia] == b[i];
        var ja :| 0 <= ja < |a| && a[ja] == b[j];
        if b[i] == b[j] {
          assert b == b[..j] + b[j..];
          assert b[i] in b[..j] && b[j] in b[j..];
          assert multiset(b)[b[i]] == multiset(b[..j])[b[i]] + multiset(b[j..])[b[i]];
          MultisetTwice(a, b[i]);
        }
      }
    }
  }

  lemma PermutationKeyFilter(a: seq<Pair>, b: seq<Pair>, k: string)
    requires DistinctKeys(a) && multiset(a) == multiset(b)
    ensures KeyFilter(a, k) == KeyFilter(b, k)
  {
    PermutationKeepsDistinct(a, b);
    DistinctKeyFilter(a, k);
    DistinctKeyFilter(b, k);
    var fa, fb := KeyFilter(a, k), KeyFilter(b, k);
    forall p | p in fa ensures p in fb {
      assert p in a && p in multiset(a);
      assert p in multiset(b);
    }
    forall p | p in fb ensures p in fa {
      assert p in b && p in multiset(b);
      assert p in multiset(a);
    }
    assert fa != [] ==> fa[0] in fb;
    assert fb != [] ==> fb[0] in fa;
    if fa != [] {
      assert fb == [fb[0]] && fa == [fa[0]];
    }
  }

  /** Reordering pairs whose keys are pairwise distinct leaves the check string unchanged. */
  lemma DataCheckStringPermutation(a: seq<Pair>, b: seq<Pair>)
    requires DistinctKeys(a) && multiset(a) == multiset(b)
    ensures DataCheckString(a) == DataCheckString(b)
  {
    forall k ensures KeyFilter(a, k) == KeyFilter(b, k) {
      PermutationKeyFilter(a, b, k);
    }
    CheckPairsDetermined(a, b);
  }

  // ---------------------------------------------------------------------------
  // `dict(pairs)`: a later pair overwrites an earlier one with the same key.

  ghost predicate IsLastWithKey(ps: seq<Pair>, i: int)
    requires 0 <= i < |ps|
  {
    forall j :: i < j < |ps| ==> ps[j].key != ps[i].key
  }

  /** `dict(pairs)`: later pairs overwrite earlier ones, so there is at most one entry per pair. */
  function ToDict(ps: seq<Pair>): (r: map<string, string>)
    ensures |r| <= |ps|
  {
    if ps == [] then map[]
    else ToDict(ps[..|ps| - 1])[ps[|ps| - 1].key := ps[|ps| - 1].value]
  }

  /** The dictionary's keys are the keys that occur among the pairs. */
  lemma {:induction false} ToDictKeys(ps: seq<Pair>, k: string)
    ensures k in ToDict(ps) <==> exists i :: 0 <= i < |ps| && ps[i].key == k
  {
    if ps != [] {
      var init := ps[..|ps| - 1];
      ToDictKeys(init, k);
      if exists i :: 0 <= i < |init| && init[i].key == k {
        var i :| 0 <= i < |init| && init[i].key == k;
        assert ps[i].key == k;
      }
      if exists i :: 0 <= i < |ps| && ps[i].key == k {
        var i :| 0 <= i < |ps| && ps[i].key == k;
        if i < |init| { assert init[i].key == k; }
      }
    }
  }

  /** Duplicate keys resolve to the value of their last pair. */
  lemma {:induction false} ToDictLastWins(ps: seq<Pair>, i: int)
    requires 0 <= i < |ps| && IsLastWithKey(ps, i)
    ensures ps[i].key in ToDict(ps) && ToDict(ps)[ps[i].key] == ps[i].value
  {
    var init := ps[..|ps| - 1];
    if i < |init| {
      assert init[i] == ps[i];
      assert IsLastWithKey(init, i);
      ToDictLastWins(init, i);
    }
  }

  /** With distinct keys the dictionary holds exactly the given pairs. */
  lemma DistinctToDict(ps: seq<Pair>, k: string, v: string)
    requires DistinctKeys(ps)
    ensures (k in ToDict(ps) && ToDict(ps)[k] == v) <==> Pair(k, v) in ps
  {
    if Pair(k, v) in ps {
      var i :| 0 <= i < |ps| && ps[i] == Pair(k, v);
      assert IsLastWithKey(ps, i);
      ToDictLastWins(ps, i);
    }
    ToDictKeys(ps, k);
    if k in ToDict(ps) {
      var i :| 0 <= i < |ps| && ps[i].key == k;
      assert IsLastWithKey(ps, i);
      ToDictLastWins(ps, i);
    }
  }

  lemma DictPermutation(a: seq<Pair>, b: seq<Pair>)
    requires DistinctKeys(a) && multiset(a) == multiset(b)
    ensures ToDict(a) == ToDict(b)
  {
    PermutationKeepsDistinct(a, b);
    var ma, mb := ToDict(a), ToDict(b);
    forall k | k in ma ensures k in mb && mb[k] == ma[k] {
      DistinctToDict(a, k, ma[k]);
      assert Pair(k, ma[k]) in multiset(a);
      DistinctToDict(b, k, ma[k]);
    }
    forall k | k in mb ensures k in ma {
      DistinctToDict(b, k, mb[k]);
      assert Pair(k, mb[k]) in multiset(b);
      DistinctToDict(a, k, mb[k]);
    }
  }

  // ---------------------------------------------------------------------------
  // The signature check.

  /** `hex(HMAC(HMAC(key="WebAppData", msg=bot_token), data_check_string))`. */
  function ExpectedHash(ps: seq<Pair>, botToken: string, prims: Primitives): string {
    var secretKey := prims.hmacSha256(prims.utf8("WebAppData"), prims.utf8(botToken));
    prims.hexDigest(prims.hmacSha256(secretKey, prims.utf8(DataCheckString(ps))))
  }

  /** What a call returns, or the text of the `TypeError` it raises. */
  datatype Outcome = Returned(ok: bool) | Raised(error: string)

  const NonAsciiCompareError := "comparing strings with non-ASCII characters is not supported"

  predicate IsAscii(s: string) {
    forall i :: 0 <= i < |s| ==> s[i] as int < 128
  }

  /** `hmac.compare_digest` on two `str` values: equality, except that it raises when
      either holds a character outside ASCII. */
  function CompareDigest(a: string, b: string): (r: Outcome)
    ensures r.Raised? <==> !IsAscii(a) || !IsAscii(b)
    ensures r.Returned? ==> (r.ok <==> a == b)
  {
    if !IsAscii(a) || !IsAscii(b) then Raised(NonAsciiCompareError) else Returned(a == b)
  }

  /** `verify_init_data`. */
  function VerifyInitData(ps: seq<Pair>, botToken: string, prims: Primitives): (r: Outcome)
    ensures r == Returned(true) ==>
              "hash" in ToDict(ps) && ToDict(ps)["hash"] == ExpectedHash(ps, botToken, prims) != ""
    ensures r.Raised? ==> r.error == NonAsciiCompareError
  {
    var m := ToDict(ps);
    if "hash" !in m || m["hash"] == "" then Returned(false)
    else CompareDigest(ExpectedHash(ps, botToken, prims), m["hash"])
  }

  /** Without any `hash` pair the check returns false. */
  lemma VerifyRejectsMissingHash(ps: seq<Pair>, botToken: string, prims: Primitives)
    requires forall i :: 0 <= i < |ps| ==> ps[i].key != "hash"
    ensures VerifyInitData(ps, botToken, prims) == Returned(false)
  {
    ToDictKeys(ps, "hash");
  }

  /** The received hash is the value of the LAST `hash` pair: the check returns false when
      it is empty; otherwise it raises when either digest holds a non-ASCII character, and
      returns whether the two are equal. */
  lemma VerifyComparesLastHash(ps: seq<Pair>, botToken: string, prims: Primitives, i: int)
    requires 0 <= i < |ps| && ps[i].key == "hash" && IsLastWithKey(ps, i)
    ensures var h, e := ps[i].value, ExpectedHash(ps, botToken, prims);
            VerifyInitData(ps, botToken, prims) ==
              if h == "" then Returned(false)
              else if !IsAscii(e) || !IsAscii(h) then Raised(NonAsciiCompareError)
              else Returned(e == h)
  {
    ToDictLastWins(ps, i);
  }

  /** A non-empty received hash with a non-ASCII character makes the check raise,
      whatever the expected digest is. */
  lemma VerifyRaisesOnNonAsciiHash(ps: seq<Pair>, botToken: string, prims: Primitives, i: int)
    requires 0 <= i < |ps| && ps[i].key == "hash" && IsLastWithKey(ps, i)
    requires exists j :: 0 <= j < |ps[i].value| && ps[i].value[j] as int >= 128
    ensures VerifyInitData(ps, botToken, prims) == Raised(NonAsciiCompareError)
  {
    VerifyComparesLastHash(ps, botToken, prims, i);
  }

  /** Round trip: appending the expected hash of any pair list yields init data that verifies
      (unless the digest is empty or not ASCII), whatever `hash` pairs the list held before. */
  lemma SignedInitDataVerifies(data: seq<Pair>, botToken: string, prims: Primitives)
    ensures var h := ExpectedHash(data, botToken, prims);
            VerifyInitData(data + [Pair("hash", h)], botToken, prims) == Returned(true) <==> h != "" && IsAscii(h)
  {
    var h := ExpectedHash(data, botToken, prims);
    var signed := data + [Pair("hash", h)];
    forall k | k != "hash" ensures KeyFilter(data, k) == KeyFilter(signed, k) {
      KeyFilterAppend(data, [Pair("hash", h)], k);
      assert [Pair("hash", h)][1..] == [];
    }
    CheckPairsDetermined(data, signed);
    assert IsLastWithKey(signed, |data|);
    VerifyComparesLastHash(signed, botToken, prims, |data|);
  }

  /** Reordering pairs whose keys are pairwise distinct does not change the verdict. */
  lemma VerifyPermutation(a: seq<Pair>, b: seq<Pair>, botToken: string, prims: Primitives)
    requires DistinctKeys(a) && multiset(a) == multiset(b)
    ensures VerifyInitData(a, botToken, prims) == VerifyInitData(b, botToken, prims)
  {
    DataCheckStringPermutation(a, b);
    DictPermutation(a, b);
  }

  // ---------------------------------------------------------------------------
  // `parse_init_data_for_app`.

  datatype AppValue<J> = Text(text: string) | Decoded(json: J)

  /** The last-wins dictionary, with `user` replaced by its JSON decoding when the
      decoder succeeds (`decode` returns None where `json.loads` raises). */
  function ParseInitDataForApp<J>(ps: seq<Pair>, decode: string -> Option<J>): map<string, AppValue<J>> {
    var d := ToDict(ps);
    map k | k in d :: if k == "user" && decode(d[k]).Some? then Decoded(decode(d[k]).value) else Text(d[k])
  }

  /** Every key of the init data appears once, holding its last value as text, except
      that `user` holds the decoded JSON when decoding succeeds and stays raw text otherwise. */
  lemma ParseInitDataForAppLastWins<J>(ps: seq<Pair>, decode: string -> Option<J>, i: int)
    requires 0 <= i < |ps| && IsLastWithKey(ps, i)
    ensures var r := ParseInitDataForApp(ps, decode);
            ps[i].key in r &&
            r[ps[i].key] == if ps[i].key == "user" && decode(ps[i].value).Some?
                            then Decoded(decode(ps[i].value).value)
                            else Text(ps[i].value)
  {
    ToDictLastWins(ps, i);
  }

  lemma ParseInitDataForAppKeys<J>(ps: seq<Pair>, decode: string -> Option<J>, k: string)
    ensures k in ParseInitDataForApp(ps, decode) <==> exists i :: 0 <= i < |ps| && ps[i].key == k
  {
    ToDictKeys(ps, k);
  }
}
