/** Types and sequence facts shared by the modules of the model. */
module Base {

  datatype Option<+T> = None | Some(value: T)

  datatype Result<+T, +E> = Ok(value: T) | Err(error: E)

  const TWO_64: nat := 0x1_0000_0000_0000_0000

  type U64 = n: int | 0 <= n < 0x1_0000_0000_0000_0000

  type U16 = n: int | 0 <= n < 0x1_0000

  type Byte = n: int | 0 <= n < 256

  /** The time from `since` to `now`, zero when `since` is later. */
  function Elapsed(now: nat, since: nat): nat { if now < since then 0 else now - since }

  /** `s` is what remains of `t` after dropping elements. */
  ghost predicate Subsequence<T>(s: seq<T>, t: seq<T>) {
    || s == []
    || (t != [] && Subsequence(s, t[..|t| - 1]))
    || (t != [] && s[|s| - 1] == t[|t| - 1] && Subsequence(s[..|s| - 1], t[..|t| - 1]))
  }

  lemma {:induction false} SubsequenceSelf<T>(s: seq<T>)
    ensures Subsequence(s, s)
  {
    if s != [] {
      SubsequenceSelf(s[..|s| - 1]);
    }
  }

  lemma {:induction false} SubsequenceTransitive<T>(a: seq<T>, b: seq<T>, c: seq<T>)
    requires Subsequence(a, b) && Subsequence(b, c)
    ensures Subsequence(a, c)
    decreases |b| + |c|
  {
    if a == [] || b == [] {
    } else if Subsequence(b, c[..|c| - 1]) {
      SubsequenceTransitive(a, b, c[..|c| - 1]);
    } else if Subsequence(a, b[..|b| - 1]) {
      SubsequenceTransitive(a, b[..|b| - 1], c[..|c| - 1]);
    } else {
      SubsequenceTransitive(a[..|a| - 1], b[..|b| - 1], c[..|c| - 1]);
    }
  }

  lemma {:induction false} SubsequenceConcat<T>(a: seq<T>, b: seq<T>, c: seq<T>, d: seq<T>)
    requires Subsequence(a, b) && Subsequence(c, d)
    ensures Subsequence(a + c, b + d)
    decreases |c| + |d|
  {
    if d == [] {
      assert a + c == a && b + d == b;
    } else {
      var d' := d[..|d| - 1];
      assert (b + d)[..|b + d| - 1] == b + d';
      if c == [] || Subsequence(c, d') {
        SubsequenceConcat(a, b, c, d');
      } else {
        var c' := c[..|c| - 1];
        SubsequenceConcat(a, b, c', d');
        assert (a + c)[..|a + c| - 1] == a + c';
      }
    }
  }

  /** Dropping elements from the tail of a subsequence leaves a subsequence. */
  lemma {:induction false} SubsequenceShorterTail<T>(a: seq<T>, c: seq<T>, d: seq<T>, t: seq<T>)
    requires Subsequence(c, d) && Subsequence(a + d, t)
    ensures Subsequence(a + c, t)
  {
    SubsequenceSelf(a);
    SubsequenceConcat(a, a, c, d);
    SubsequenceTransitive(a + c, a + d, t);
  }

  lemma {:induction false} SubsequenceLonger<T>(a: seq<T>, b: seq<T>, x: seq<T>)
    requires Subsequence(a, b)
    ensures Subsequence(a + x, b + x) && Subsequence(a, b + x)
  {
    SubsequenceSelf(x);
    SubsequenceConcat(a, b, x, x);
    SubsequenceConcat(a, b, [], x);
    assert a + [] == a;
  }

  /** Some of a sequence, chosen by a mask; elements the mask does not reach are dropped. */
  function Select<T>(s: seq<T>, mask: seq<bool>): seq<T> {
    if s == [] then []
    else
      var last := |s| - 1;
      Select(s[..last], mask) + (if last < |mask| && mask[last] then [s[last]] else [])
  }

  lemma {:induction false} SelectIsSubsequence<T>(s: seq<T>, mask: seq<bool>)
    ensures Subsequence(Select(s, mask), s)
  {
    if s != [] {
      var last := |s| - 1;
      SelectIsSubsequence(s[..last], mask);
      var rest := if last < |mask| && mask[last] then [s[last]] else [];
      SubsequenceConcat(Select(s[..last], mask), s[..last], rest, [s[last]]);
      assert s == s[..last] + [s[last]];
    }
  }

  lemma {:induction false} SelectConcat<T>(a: seq<T>, b: seq<T>, ma: seq<bool>, mb: seq<bool>)
    requires |ma| == |a| && |mb| == |b|
    ensures Select(a + b, ma + mb) == Select(a, ma) + Select(b, mb)
  {
    if b == [] {
      assert a + b == a && ma + mb == ma;
    } else {
      var last := |b| - 1;
      SelectConcat(a, b[..last], ma, mb[..last]);
      assert (a + b)[..|a + b| - 1] == a + b[..last];
      SelectPrefix(a + b[..last], ma + mb[..last], ma + mb);
      SelectPrefix(b[..last], mb[..last], mb);
    }
  }

  lemma {:induction false} SelectPrefix<T>(s: seq<T>, short: seq<bool>, mask: seq<bool>)
    requires |s| <= |short| <= |mask| && short == mask[..|short|]
    ensures Select(s, short) == Select(s, mask)
  {
    if s != [] {
      SelectPrefix(s[..|s| - 1], short, mask);
    }
  }

  lemma {:induction false} SelectFirst<T>(s: seq<T>, n: nat, mask: seq<bool>)
    requires n <= |s| == |mask|
    requires forall i | 0 <= i < |s| :: mask[i] <==> i < n
    ensures Select(s, mask) == s[..n]
  {
    if s != [] {
      var last := |s| - 1;
      SelectPrefix(s[..last], mask[..last], mask);
      if n == |s| {
        SelectFirst(s[..last], last, mask[..last]);
        assert s == s[..last] + [s[last]];
      } else {
        SelectFirst(s[..last], n, mask[..last]);
      }
    }
  }

  /** Choosing the same places of two sequences keeps them paired. */
  lemma {:induction false} SelectPaired<A, B>(a: seq<A>, b: seq<B>, mask: seq<bool>, paired: (A, B) -> bool)
    requires |a| == |b| && forall k | 0 <= k < |a| :: paired(a[k], b[k])
    ensures |Select(a, mask)| == |Select(b, mask)|
    ensures forall k | 0 <= k < |Select(a, mask)| :: paired(Select(a, mask)[k], Select(b, mask)[k])
  {
    if a != [] {
      SelectPaired(a[..|a| - 1], b[..|b| - 1], mask, paired);
    }
  }

  lemma {:induction false} SubsequenceIn<T>(s: seq<T>, t: seq<T>, x: T)
    requires Subsequence(s, t) && x in s
    ensures x in t
    decreases |s| + |t|
  {
    if Subsequence(s, t[..|t| - 1]) {
      SubsequenceIn(s, t[..|t| - 1], x);
    } else if x in s[..|s| - 1] {
      SubsequenceIn(s[..|s| - 1], t[..|t| - 1], x);
    }
  }

  lemma {:induction false} SelectHas<T>(s: seq<T>, mask: seq<bool>, x: T)
    ensures x in Select(s, mask) <==> exists k :: 0 <= k < |s| && k < |mask| && mask[k] && s[k] == x
  {
    if s != [] {
      SelectHas(s[..|s| - 1], mask, x);
    }
  }

  // ---------------------------------------------------------------- quotients

  lemma {:induction false} Scale(d: int, m: nat)
    ensures d >= 1 ==> d * m >= m
    ensures d <= -1 ==> d * m + m <= 0
  {
  }

  /** Quotient and remainder are the only ones. */
  lemma {:induction false} Rest(x: nat, m: nat, q: nat, r: int)
    requires 0 <= r < m && x == q * m + r
    ensures x % m == r && x / m == q
  {
    var d := x / m - q;
    assert d * m == r - x % m;
    Scale(d, m);
  }
}
