/** The two quick-access lists of the sidebar (src/App.jsx:126-132): the
    recently used calculator ids and the pinned ones, both persisted as
    JSON arrays of ids and capped at eight entries. */
module QuickAccess {

  /** `.slice(0, 8)` keeps at most this many ids. */
  const Cap: nat := 8

  /** `.slice(0, n)`. */
  function Take(s: seq<int>, n: nat): (r: seq<int>)
    ensures |r| <= n && r <= s
    ensures |s| <= n ==> r == s
    ensures |s| > n ==> |r| == n
  {
    if |s| <= n then s else s[..n]
  }

  /** `s.filter((y) => y !== x)`. */
  function Without(s: seq<int>, x: int): (r: seq<int>)
    ensures forall y :: y in r <==> y in s && y != x
    ensures |r| <= |s|
    ensures x in s ==> |r| < |s|
    ensures x !in s ==> r == s
  {
    if s == [] then []
    else if s[0] == x then Without(s[1..], x)
    else [s[0]] + Without(s[1..], x)
  }

  /** `a` is `b` with some elements left out, the rest in their order. */
  ghost predicate SubsequenceOf(a: seq<int>, b: seq<int>)
    decreases |b|
  {
    a == [] || (b != [] && ((a[0] == b[0] && SubsequenceOf(a[1..], b[1..])) || SubsequenceOf(a, b[1..])))
  }

  /** No id occurs twice. */
  predicate Distinct(s: seq<int>) {
    forall i, j | 0 <= i < j < |s| :: s[i] != s[j]
  }

  lemma {:induction false} WithoutIsSubsequence(s: seq<int>, x: int)
    ensures SubsequenceOf(Without(s, x), s)
  {
    if s != [] {
      WithoutIsSubsequence(s[1..], x);
      if s[0] != x {
        assert ([s[0]] + Without(s[1..], x))[1..] == Without(s[1..], x);
      }
    }
  }

  lemma {:induction false} PrefixOfSubsequence(a: seq<int>, b: seq<int>, n: nat)
    requires SubsequenceOf(a, b) && n <= |a|
    ensures SubsequenceOf(a[..n], b)
    decreases |b|
  {
    if n > 0 {
      assert a != [] && b != [];
      if a[0] == b[0] && SubsequenceOf(a[1..], b[1..]) {
        PrefixOfSubsequence(a[1..], b[1..], n - 1);
        assert a[..n][1..] == a[1..][..n - 1];
      } else {
        PrefixOfSubsequence(a, b[1..], n);
      }
    }
  }

  lemma {:induction false} WithoutKeepsDistinct(s: seq<int>, x: int)
    requires Distinct(s)
    ensures Distinct(Without(s, x))
  {
    if s != [] {
      assert Distinct(s[1..]) by {
        forall i, j | 0 <= i < j < |s[1..]| ensures s[1..][i] != s[1..][j] {
          assert s[1..][i] == s[i + 1] && s[1..][j] == s[j + 1];
        }
      }
      WithoutKeepsDistinct(s[1..], x);
      if s[0] != x {
        var r := [s[0]] + Without(s[1..], x);
        forall i, j | 0 <= i < j < |r| ensures r[i] != r[j] {
          if i == 0 {
            assert r[j] in Without(s[1..], x);
            assert s[0] !in s[1..];
          } else {
            assert r[i] == Without(s[1..], x)[i - 1] && r[j] == Without(s[1..], x)[j - 1];
          }
        }
      }
    }
  }

  /** `touchRecent`: the id moves to the front, its older occurrences go,
      and the list is cut to eight. */
  function TouchRecent(prev: seq<int>, id: int): (r: seq<int>)
    ensures 1 <= |r| <= Cap && r[0] == id
    ensures |r| == if |Without(prev, id)| < Cap then |Without(prev, id)| + 1 else Cap
    ensures id !in r[1..]
    ensures r[1..] <= Without(prev, id)
    ensures forall y | y in r :: y == id || y in prev
    ensures |Without(prev, id)| < Cap ==> forall y | y in prev :: y in r
  {
    Take([id] + Without(prev, id), Cap)
  }

  /** The ids behind the head keep their relative order from `prev`. */
  lemma TouchRecentKeepsOrder(prev: seq<int>, id: int)
    ensures SubsequenceOf(TouchRecent(prev, id)[1..], prev)
  {
    var r := TouchRecent(prev, id);
    var w := Without(prev, id);
    WithoutIsSubsequence(prev, id);
    assert r[1..] == w[..|r| - 1];
    PrefixOfSubsequence(w, prev, |r| - 1);
  }

  /** A list without repeated ids stays so. */
  lemma TouchRecentKeepsDistinct(prev: seq<int>, id: int)
    requires Distinct(prev)
    ensures Distinct(TouchRecent(prev, id))
  {
    var r := TouchRecent(prev, id);
    var w := Without(prev, id);
    WithoutKeepsDistinct(prev, id);
    forall i, j | 0 <= i < j < |r| ensures r[i] != r[j] {
      if i == 0 {
        assert r[j] == r[1..][j - 1];
      } else {
        assert r[i] == w[i - 1] && r[j] == w[j - 1];
      }
    }
  }

  /** Touching the same id twice is the same as touching it once. */
  lemma TouchRecentIdempotent(prev: seq<int>, id: int)
    ensures TouchRecent(TouchRecent(prev, id), id) == TouchRecent(prev, id)
  {
    var r := TouchRecent(prev, id);
    assert r == [id] + r[1..];
    WithoutHeadAndAbsent(r, id);
  }

  /** Removing an id from a list that starts with it and holds it nowhere
      else leaves the tail. */
  lemma WithoutHeadAndAbsent(s: seq<int>, x: int)
    requires s != [] && s[0] == x && x !in s[1..]
    ensures Without(s, x) == s[1..]
  {
  }

  /** `togglePin`: an unpinned id is put in front (cut to eight), a pinned
      one is removed. */
  function TogglePin(prev: seq<int>, id: int): (r: seq<int>)
    ensures id in r <==> id !in prev
    ensures id !in prev ==> r[0] == id && |r| <= Cap && r <= [id] + prev
    ensures id !in prev ==> |r| == if |prev| < Cap then |prev| + 1 else Cap
    ensures id in prev ==> |r| < |prev| && forall y :: y in r <==> y in prev && y != id
    ensures id in prev ==> r == Without(prev, id)
  {
    if id in prev then Without(prev, id)
    else
      var r := Take([id] + prev, Cap);
      assert r[0] == ([id] + prev)[0] == id;
      r
  }

  /** Unpinning keeps the other pins in their order. */
  lemma TogglePinRemovalKeepsOrder(prev: seq<int>, id: int)
    requires id in prev
    ensures SubsequenceOf(TogglePin(prev, id), prev)
  {
    WithoutIsSubsequence(prev, id);
  }

  /** Pinning and unpinning an id returns the original list when it had
      room for one more. */
  lemma TogglePinTwice(prev: seq<int>, id: int)
    requires id !in prev && |prev| < Cap
    ensures TogglePin(TogglePin(prev, id), id) == prev
  {
    WithoutHeadAndAbsent([id] + prev, id);
    assert ([id] + prev)[1..] == prev;
  }

  /** With eight pins already, pinning and unpinning an id loses the last
      of them. */
  lemma TogglePinTwiceDropsLast(prev: seq<int>, id: int)
    requires id !in prev && |prev| >= Cap
    ensures TogglePin(TogglePin(prev, id), id) == prev[..Cap - 1]
  {
    var pinned := TogglePin(prev, id);
    assert pinned == [id] + prev[..Cap - 1];
    WithoutHeadAndAbsent(pinned, id);
    assert pinned[1..] == prev[..Cap - 1];
  }
}
