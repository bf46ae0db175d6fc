/** Sums of natural-number weights over finite maps, and counting by injection. */
module Sums {

  ghost function Sum<K>(w: map<K, nat>): nat
    decreases |w|
  {
    if w == map[] then 0
    else
      var k :| k in w;
      w[k] + Sum(w - {k})
  }

  /** Any key can be taken out first. */
  lemma {:induction false} SumRemove<K>(w: map<K, nat>, k: K)
    requires k in w
    ensures Sum(w) == w[k] + Sum(w - {k})
    decreases |w|
  {
    var c :| c in w && Sum(w) == w[c] + Sum(w - {c});
    if c == k {
    } else {
      SumRemove(w - {c}, k);
      SumRemove(w - {k}, c);
      assert w - {c} - {k} == w - {k} - {c};
    }
  }

  lemma SumUpdate<K>(w: map<K, nat>, k: K, v: nat)
    ensures Sum(w[k := v]) == v + Sum(w - {k})
    ensures k in w ==> Sum(w[k := v]) == Sum(w) - w[k] + v
    ensures k !in w ==> Sum(w[k := v]) == Sum(w) + v
  {
    SumRemove(w[k := v], k);
    assert w[k := v] - {k} == w - {k};
    if k in w {
      SumRemove(w, k);
    } else {
      assert w - {k} == w;
    }
  }

  lemma {:induction false} SumMonotone<K>(w: map<K, nat>, v: map<K, nat>)
    requires forall k :: k in w && w[k] > 0 ==> k in v && w[k] <= v[k]
    ensures Sum(w) <= Sum(v)
    decreases |w|
  {
    if w == map[] {
    } else {
      var k :| k in w;
      SumRemove(w, k);
      if k in v {
        SumRemove(v, k);
      }
      SumMonotone(w - {k}, v - {k});
      assert k !in v ==> v - {k} == v;
    }
  }

  /** A set with an injection into another is no larger. */
  lemma {:induction false} CountByInjection<A, B>(f: map<A, B>, target: set<B>)
    requires forall a :: a in f ==> f[a] in target
    requires forall a, b :: a in f && b in f && f[a] == f[b] ==> a == b
    ensures |f.Keys| <= |target|
    decreases |f|
  {
    if f.Keys == {} {
    } else {
      var a :| a in f;
      CountByInjection(f - {a}, target - {f[a]});
      assert (f - {a}).Keys == f.Keys - {a};
    }
  }

  /** Outside any finite set of strings there is a non-empty one. */
  lemma {:induction false} FreshString(used: set<string>) returns (s: string)
    ensures s != "" && s !in used
  {
    var n := LongerThan(used);
    s := seq(n + 1, i => 'u');
  }

  lemma {:induction false} LongerThan(used: set<string>) returns (n: nat)
    ensures forall u :: u in used ==> |u| <= n
    decreases |used|
  {
    if used == {} {
      n := 0;
    } else {
      var u :| u in used;
      var m := LongerThan(used - {u});
      n := if m < |u| then |u| else m;
      forall v | v in used ensures |v| <= n {
        assert v == u || v in used - {u};
      }
    }
  }
}
