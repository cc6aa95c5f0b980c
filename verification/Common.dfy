/** Shared vocabulary: optional values, results, string pieces and sums over finite maps. */
module Common {
  datatype Option<+T> = None | Some(value: T)

  datatype Result<+T, +E> = Ok(value: T) | Err(error: E)

  /** The history kept for a key; a key never mentioned has the empty history. */
  function Log<K, T>(m: map<K, seq<T>>, k: K): seq<T> {
    if k in m then m[k] else []
  }

  function Append<K(!new), T>(m: map<K, seq<T>>, k: K, x: T): (r: map<K, seq<T>>)
    ensures forall j :: Log(r, j) == if j == k then Log(m, k) + [x] else Log(m, j)
  {
    m[k := Log(m, k) + [x]]
  }

  /** Lower-case hexadecimal digits, most significant first. */
  function Hex(n: nat): string {
    if n < 16 then [HEX_DIGITS[n]] else Hex(n / 16) + [HEX_DIGITS[n % 16]]
  }

  const HEX_DIGITS := "0123456789abcdef"

  lemma {:induction false} HexInjective(m: nat, n: nat)
    requires Hex(m) == Hex(n)
    ensures m == n
  {
    assert forall i, j :: 0 <= i < j < 16 ==> HEX_DIGITS[i] != HEX_DIGITS[j];
    HexNonEmpty(m / 16);
    HexNonEmpty(n / 16);
    assert Hex(m)[|Hex(m)| - 1] == HEX_DIGITS[m % 16];
    assert Hex(n)[|Hex(n)| - 1] == HEX_DIGITS[n % 16];
    if m >= 16 && n >= 16 {
      assert Hex(m)[..|Hex(m)| - 1] == Hex(m / 16);
      assert Hex(n)[..|Hex(n)| - 1] == Hex(n / 16);
      HexInjective(m / 16, n / 16);
    }
  }

  lemma HexNonEmpty(n: nat)
    ensures |Hex(n)| > 0
  {}

  /** The number with these digits in base 16, the first being the highest. */
  function Base16Value(ds: seq<nat>): nat {
    if ds == [] then 0 else Base16Value(ds[..|ds| - 1]) * 16 + ds[|ds| - 1]
  }

  /** The text of n reads as n, and has no leading zero. */
  lemma {:induction false} HexReads(n: nat) returns (ds: seq<nat>)
    ensures |ds| == |Hex(n)| && forall i :: 0 <= i < |ds| ==> ds[i] < 16 && Hex(n)[i] == "0123456789abcdef"[ds[i]]
    ensures Base16Value(ds) == n && ds != [] && (ds[0] == 0 ==> n == 0 && |ds| == 1)
  {
    if n < 16 {
      ds := [n];
      assert ds[..0] == [];
    } else {
      var front := HexReads(n / 16);
      ds := front + [n % 16];
      assert ds[..|front|] == front;
    }
  }

  /** The sum of f over the keys ks, in no particular order. */
  ghost function SumOver<K>(f: map<K, nat>, ks: set<K>): nat
    requires ks <= f.Keys
    decreases |ks|
  {
    if ks == {} then 0 else
      var k :| k in ks;
      f[k] + SumOver(f, ks - {k})
  }

  /** The sum does not depend on which key is taken out first. */
  lemma {:induction false} SumTake<K>(f: map<K, nat>, ks: set<K>, k: K)
    requires ks <= f.Keys && k in ks
    ensures SumOver(f, ks) == f[k] + SumOver(f, ks - {k})
    decreases |ks|
  {
    var j :| j in ks && SumOver(f, ks) == f[j] + SumOver(f, ks - {j});
    if j != k {
      SumTake(f, ks - {j}, k);
      SumTake(f, ks - {k}, j);
      assert ks - {j} - {k} == ks - {k} - {j};
    }
  }

  lemma {:induction false} SumSame<K>(f: map<K, nat>, g: map<K, nat>, ks: set<K>)
    requires ks <= f.Keys && ks <= g.Keys
    requires forall k :: k in ks ==> f[k] == g[k]
    ensures SumOver(f, ks) == SumOver(g, ks)
    decreases |ks|
  {
    if ks != {} {
      var k :| k in ks;
      SumTake(f, ks, k);
      SumTake(g, ks, k);
      SumSame(f, g, ks - {k});
    }
  }

  /** Lowering f at one key, by at most one, lowers its sums by no more than that. */
  lemma {:induction false} SumLower<K>(f: map<K, nat>, g: map<K, nat>, ks: set<K>, j: K)
    requires ks <= f.Keys && ks <= g.Keys
    requires forall k :: k in ks && k != j ==> f[k] == g[k]
    requires j in ks ==> g[j] <= f[j] <= g[j] + 1
    ensures SumOver(g, ks) <= SumOver(f, ks) <= SumOver(g, ks) + 1
  {
    if j in ks {
      SumTake(f, ks, j);
      SumTake(g, ks, j);
      SumSame(f, g, ks - {j});
    } else {
      SumSame(f, g, ks);
    }
  }

  /** f pairs off what is in xs and what is in ys. */
  lemma {:induction false} SameSize<A, B>(xs: set<A>, ys: set<B>, f: map<A, B>)
    requires f.Keys == xs && f.Values == ys
    requires forall x, y :: x in xs && y in xs && f[x] == f[y] ==> x == y
    ensures |xs| == |ys|
    decreases xs
  {
    if xs == {} {
      assert ys == {};
    } else {
      var x :| x in xs;
      var rest := f - {x};
      assert rest.Values == ys - {f[x]} by {
        forall y | y in ys - {f[x]} ensures y in rest.Values {
          var k :| k in f && f[k] == y;
          assert k in rest && rest[k] == y;
        }
      }
      SameSize(xs - {x}, ys - {f[x]}, rest);
    }
  }

  // ---- Subsequences ----

  predicate Subsequence<T(==)>(xs: seq<T>, ys: seq<T>) {
    if xs == [] then true
    else if ys == [] then false
    else (xs[|xs| - 1] == ys[|ys| - 1] && Subsequence(xs[..|xs| - 1], ys[..|ys| - 1]))
         || Subsequence(xs, ys[..|ys| - 1])
  }

  lemma {:induction false} SubsequenceLonger<T>(xs: seq<T>, ys: seq<T>, n: nat)
    requires n <= |ys| && Subsequence(xs, ys[..n])
    ensures Subsequence(xs, ys)
    decreases |ys| - n
  {
    if n == |ys| {
      assert ys[..n] == ys;
    } else {
      assert ys[..n + 1][..n] == ys[..n];
      SubsequenceLonger(xs, ys, n + 1);
    }
  }

  lemma SubsequenceExtend<T>(xs: seq<T>, ys: seq<T>, n: nat)
    requires n < |ys| && Subsequence(xs, ys[..n])
    ensures Subsequence(xs + [ys[n]], ys)
  {
    var zs := ys[..n + 1];
    assert zs[..|zs| - 1] == ys[..n] && (xs + [ys[n]])[..|xs|] == xs;
    SubsequenceLonger(xs + [ys[n]], ys, n + 1);
  }
}
