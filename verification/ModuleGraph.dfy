/** The depth-first order in which modules are compiled and initialised, on import graphs
    that may be cyclic. */
module ModuleGraph {
  import opened Basics

  /** A module as it is named in `imports`: a class, or a dynamic-module object. */
  datatype Ref = StaticModule(cls: nat) | DynamicModule(instance: nat)

  type Imports = map<Ref, seq<Ref>>

  /** Every import of a module is itself a module. */
  ghost predicate Closed(g: Imports) {
    forall m, x | m in g && x in g[m] :: x in g
  }

  /** Visits `todo` in order, each module after its imports, and none in `seen`.
      Returns the modules seen and the order in which visits finished. */
  ghost function Dfs(g: Imports, todo: seq<Ref>, seen: set<Ref>): (r: (set<Ref>, seq<Ref>))
    requires Closed(g) && forall m | m in todo :: m in g
    ensures seen <= r.0
    decreases |g.Keys - seen|, |todo|
  {
    if todo == [] then (seen, [])
    else if todo[0] in seen then Dfs(g, todo[1..], seen)
    else
      assert g.Keys - (seen + {todo[0]}) < g.Keys - seen;
      SmallerSet(g.Keys - (seen + {todo[0]}), g.Keys - seen);
      var inner := Dfs(g, g[todo[0]], seen + {todo[0]});
      SubsetSize(g.Keys - inner.0, g.Keys - (seen + {todo[0]}));
      var rest := Dfs(g, todo[1..], inner.0);
      (rest.0, inner.1 + [todo[0]] + rest.1)
  }

  /** Visiting a new module first: its imports, itself, then the rest. */
  lemma {:induction false} DfsNew(g: Imports, todo: seq<Ref>, seen: set<Ref>)
    requires Closed(g) && (forall m | m in todo :: m in g) && todo != [] && todo[0] !in seen
    ensures var inner := Dfs(g, g[todo[0]], seen + {todo[0]});
            var rest := Dfs(g, todo[1..], inner.0);
            && Dfs(g, todo, seen) == (rest.0, inner.1 + [todo[0]] + rest.1)
            && seen + {todo[0]} <= inner.0 && |g.Keys - inner.0| < |g.Keys - seen|
    ensures |g.Keys - (seen + {todo[0]})| < |g.Keys - seen|
  {
    SmallerSet(g.Keys - (seen + {todo[0]}), g.Keys - seen);
    SubsetSize(g.Keys - Dfs(g, g[todo[0]], seen + {todo[0]}).0, g.Keys - (seen + {todo[0]}));
  }

  /** Nothing is visited for a module already seen, or for none. */
  lemma {:induction false} DfsOld(g: Imports, todo: seq<Ref>, seen: set<Ref>)
    requires Closed(g) && (forall m | m in todo :: m in g) && (todo != [] ==> todo[0] in seen)
    ensures Dfs(g, todo, seen) == if todo == [] then (seen, []) else Dfs(g, todo[1..], seen)
  {
  }

  lemma SmallerSet<T>(a: set<T>, b: set<T>)
    requires a < b
    ensures |a| < |b|
  {
    var x :| x in b && x !in a;
    SubsetSize(a, b - {x});
  }

  /** The modules in initialisation order. */
  ghost function InitOrder(g: Imports, root: Ref): seq<Ref>
    requires Closed(g) && root in g
  {
    Dfs(g, [root], {}).1
  }

  /** Every finished visit is new, and each new module finishes once. */
  ghost predicate Covers(g: Imports, seen: set<Ref>, r: (set<Ref>, seq<Ref>)) {
    && Distinct(r.1) && (forall m | m in r.1 :: m !in seen && m in g)
    && r.0 == seen + Elements(r.1)
  }

  lemma CoversJoin(g: Imports, seen: set<Ref>, m: Ref, inner: (set<Ref>, seq<Ref>), rest: (set<Ref>, seq<Ref>))
    requires m in g && m !in seen && Covers(g, seen + {m}, inner) && Covers(g, inner.0, rest)
    ensures Covers(g, seen, (rest.0, inner.1 + [m] + rest.1))
  {
    var all := inner.1 + [m] + rest.1;
    forall x
      ensures x in all <==> x in inner.1 || x == m || x in rest.1
    {
    }
    assert Elements(all) == Elements(inner.1) + {m} + Elements(rest.1);
    DistinctJoin(inner.1, m, rest.1);
  }

  lemma DistinctJoin(a: seq<Ref>, m: Ref, b: seq<Ref>)
    requires Distinct(a) && Distinct(b) && m !in a && m !in b && forall x | x in b :: x !in a
    ensures Distinct(a + [m] + b)
  {
    var s := a + [m] + b;
    forall i, j | 0 <= i < j < |s|
      ensures s[i] != s[j]
    {
      if i < |a| {
        assert s[i] in a;
      }
      if |a| < j {
        assert s[j] == b[j - |a| - 1] && s[j] in b;
      }
      if |a| < i {
        assert s[i] == b[i - |a| - 1];
      }
    }
  }

  lemma {:induction false} DfsCovers(g: Imports, todo: seq<Ref>, seen: set<Ref>)
    requires Closed(g) && forall m | m in todo :: m in g
    ensures Covers(g, seen, Dfs(g, todo, seen)) && forall m | m in todo :: m in Dfs(g, todo, seen).0
    decreases |g.Keys - seen|, |todo|
  {
    hide Distinct, Dfs, Closed;
    if todo == [] {
      NothingCovered(g, seen);
    } else if todo[0] in seen {
      DfsOld(g, todo, seen);
      DfsCovers(g, todo[1..], seen);
    } else {
      var m := todo[0];
      ImportsInside(g, m);
      DfsNew(g, todo, seen);
      var inner := Dfs(g, g[m], seen + {m});
      DfsCovers(g, g[m], seen + {m});
      DfsCovers(g, todo[1..], inner.0);
      CoversJoin(g, seen, m, inner, Dfs(g, todo[1..], inner.0));
    }
  }

  lemma ImportsInside(g: Imports, m: Ref)
    requires Closed(g) && m in g
    ensures forall x | x in g[m] :: x in g
  {
  }

  lemma {:induction false} NothingCovered(g: Imports, seen: set<Ref>)
    requires Closed(g)
    ensures Covers(g, seen, Dfs(g, [], seen))
  {
    assert seen + {} == seen;
  }

  // ------------------------------------------------------------------ reaching

  ghost predicate Path(g: Imports, p: seq<Ref>) {
    |p| > 0 && p[0] in g && (|p| > 1 ==> p[1] in g[p[0]] && Path(g, p[1..]))
  }

  /** `a` imports `b`, directly or through other modules, or is `b`. */
  ghost predicate Reaches(g: Imports, a: Ref, b: Ref) {
    exists p :: Path(g, p) && p[0] == a && p[|p| - 1] == b
  }

  lemma ReachesItself(g: Imports, a: Ref)
    requires a in g
    ensures Reaches(g, a, a)
  {
    assert Path(g, [a]);
  }

  lemma {:induction false} PathExtends(g: Imports, p: seq<Ref>, x: Ref)
    requires Closed(g) && Path(g, p) && p[|p| - 1] in g && x in g[p[|p| - 1]]
    ensures Path(g, p + [x])
  {
    if |p| > 1 {
      PathExtends(g, p[1..], x);
      assert (p + [x])[1..] == p[1..] + [x];
    } else {
      assert (p + [x])[1..] == [x];
    }
  }

  lemma {:induction false} PathInside(g: Imports, p: seq<Ref>)
    requires Closed(g) && Path(g, p)
    ensures p[|p| - 1] in g
  {
    if |p| > 1 {
      PathInside(g, p[1..]);
    }
  }

  lemma ReachesImport(g: Imports, a: Ref, b: Ref, x: Ref)
    requires Closed(g) && Reaches(g, a, b) && b in g && x in g[b]
    ensures Reaches(g, a, x)
  {
    var p :| Path(g, p) && p[0] == a && p[|p| - 1] == b;
    PathExtends(g, p, x);
    assert (p + [x])[|p + [x]| - 1] == x;
  }

  /** A set that is closed under imports contains whatever its members reach. */
  lemma {:induction false} ClosedUnderPath(g: Imports, s: set<Ref>, p: seq<Ref>)
    requires Path(g, p) && p[0] in s && forall m, x | m in s && m in g && x in g[m] :: x in s
    ensures p[|p| - 1] in s
  {
    if |p| > 1 {
      ClosedUnderPath(g, s, p[1..]);
    }
  }

  /** What is visited is reached from what was to be visited, and what is seen at the end is
      closed under imports as far as it is new. */
  lemma {:induction false} DfsReaches(g: Imports, todo: seq<Ref>, seen: set<Ref>, from: Ref)
    requires Closed(g) && forall m | m in todo :: m in g && Reaches(g, from, m)
    ensures forall m | m in Dfs(g, todo, seen).1 :: Reaches(g, from, m)
    ensures forall m, x | m in Dfs(g, todo, seen).1 && m in g && x in g[m] :: x in Dfs(g, todo, seen).0
    decreases |g.Keys - seen|, |todo|
  {
    hide Dfs, Closed, Reaches, Distinct;
    DfsCovers(g, todo, seen);
    if todo == [] {
      DfsOld(g, todo, seen);
    } else {
      var m := todo[0];
      if m in seen {
        DfsOld(g, todo, seen);
        DfsReaches(g, todo[1..], seen, from);
      } else {
        ImportsInside(g, m);
        DfsNew(g, todo, seen);
        var inner := Dfs(g, g[m], seen + {m});
        forall x | x in g[m]
          ensures Reaches(g, from, x)
        {
          ReachesImport(g, from, m, x);
        }
        DfsReaches(g, g[m], seen + {m}, from);
        DfsCovers(g, g[m], seen + {m});
        DfsReaches(g, todo[1..], inner.0, from);
      }
    }
  }

  /** At the time a module finishes, each of its imports has finished before it, was finished
      before the search began, or is still being visited and so reaches it. `stack` are the
      modules being visited. */
  lemma {:induction false} DfsOrders(g: Imports, todo: seq<Ref>, seen: set<Ref>, stack: set<Ref>, i: nat, x: Ref)
    requires Closed(g) && stack <= seen && forall m | m in todo :: m in g
    requires forall s, m | s in stack && m in todo :: Reaches(g, s, m)
    requires i < |Dfs(g, todo, seen).1| && Dfs(g, todo, seen).1[i] in g && x in g[Dfs(g, todo, seen).1[i]]
    ensures var order := Dfs(g, todo, seen).1;
            x in order[..i] || x in seen - stack || Reaches(g, x, order[i])
    decreases |g.Keys - seen|, |todo|
  {
    hide Dfs, Closed, Reaches, Covers;
    if todo == [] {
      DfsOld(g, todo, seen);
      assert false;
    }
    var m := todo[0];
    if m in seen {
      DfsOld(g, todo, seen);
      DfsOrders(g, todo[1..], seen, stack, i, x);
    } else {
      ImportsInside(g, m);
      DfsNew(g, todo, seen);
      var inner := Dfs(g, g[m], seen + {m});
      var rest := Dfs(g, todo[1..], inner.0);
      var order := Dfs(g, todo, seen).1;
      SeenOrFinished(g, g[m], seen + {m});
      if i < |inner.1| {
        StackReaches(g, stack, m);
        DfsOrders(g, g[m], seen + {m}, stack + {m}, i, x);
        assert order[..i] == inner.1[..i];
      } else if i == |inner.1| {
        assert order[..i] == inner.1;
        if x == m {
          ReachesItself(g, m);
        }
      } else {
        var j := i - |inner.1| - 1;
        DfsOrders(g, todo[1..], inner.0, stack, j, x);
        assert order[..i] == inner.1 + [m] + rest.1[..j];
      }
    }
  }

  lemma {:induction false} SeenOrFinished(g: Imports, todo: seq<Ref>, seen: set<Ref>)
    requires Closed(g) && forall m | m in todo :: m in g
    ensures forall m | m in todo :: m in Dfs(g, todo, seen).0
    ensures forall m | m in Dfs(g, todo, seen).0 :: m in seen || m in Dfs(g, todo, seen).1
    ensures seen <= Dfs(g, todo, seen).0
  {
    hide Dfs;
    DfsCovers(g, todo, seen);
  }

  lemma StackReaches(g: Imports, stack: set<Ref>, m: Ref)
    requires Closed(g) && m in g && forall s | s in stack :: Reaches(g, s, m)
    ensures forall s, x | s in stack + {m} && x in g[m] :: Reaches(g, s, x)
  {
    forall s, x | s in stack + {m} && x in g[m]
      ensures Reaches(g, s, x)
    {
      ReachesItself(g, m);
      ReachesImport(g, s, m, x);
    }
  }

  // -------------------------------------------------------------- initialisation

  /** The initialisation order holds exactly the modules the root reaches, each once, the root
      last; an import comes before its importer unless it reaches the importer in turn. */
  lemma InitOrderIsSound(g: Imports, root: Ref)
    requires Closed(g) && root in g
    ensures var order := InitOrder(g, root);
            && Distinct(order) && |order| > 0 && order[|order| - 1] == root
            && (forall m :: m in order <==> Reaches(g, root, m))
            && (forall i, x | 0 <= i < |order| && order[i] in g && x in g[order[i]] ::
                  x in order[..i] || Reaches(g, x, order[i]))
  {
    var order := InitOrder(g, root);
    DfsCovers(g, [root], {});
    ReachesItself(g, root);
    DfsReaches(g, [root], {}, root);
    var inner := Dfs(g, g[root], {} + {root});
    assert Dfs(g, [root][1..], inner.0).1 == [];
    assert order == inner.1 + [root] + [];
    forall m | Reaches(g, root, m)
      ensures m in order
    {
      var p :| Path(g, p) && p[0] == root && p[|p| - 1] == m;
      ClosedUnderPath(g, Elements(order), p);
    }
    forall i, x | 0 <= i < |order| && order[i] in g && x in g[order[i]]
      ensures x in order[..i] || Reaches(g, x, order[i])
    {
      DfsOrders(g, [root], {}, {}, i, x);
    }
  }

  /** Visiting one list after another. */
  lemma {:induction false} DfsSplit(g: Imports, a: seq<Ref>, b: seq<Ref>, seen: set<Ref>)
    requires Closed(g) && (forall m | m in a :: m in g) && forall m | m in b :: m in g
    ensures var first := Dfs(g, a, seen);
            var then' := Dfs(g, b, first.0);
            Dfs(g, a + b, seen) == (then'.0, first.1 + then'.1)
    decreases |g.Keys - seen|, |a|
  {
    hide Dfs, Closed;
    if a == [] {
      DfsOld(g, a, seen);
      assert a + b == b && [] + Dfs(g, b, seen).1 == Dfs(g, b, seen).1;
    } else {
      assert (a + b)[0] == a[0] && (a + b)[1..] == a[1..] + b;
      if a[0] in seen {
        DfsOld(g, a, seen);
        DfsOld(g, a + b, seen);
        DfsSplit(g, a[1..], b, seen);
      } else {
        ImportsInside(g, a[0]);
        DfsNew(g, a, seen);
        DfsNew(g, a + b, seen);
        var inner := Dfs(g, g[a[0]], seen + {a[0]});
        DfsSplit(g, a[1..], b, inner.0);
        var first := Dfs(g, a[1..], inner.0);
        var later := Dfs(g, b, first.0);
        ConcatAssociative(inner.1 + [a[0]], first.1, later.1);
      }
    }
  }

  /** What is visited is reached from something that was to be visited. */
  lemma {:induction false} DfsFrom(g: Imports, todo: seq<Ref>, seen: set<Ref>)
    requires Closed(g) && forall m | m in todo :: m in g
    ensures forall m | m in Dfs(g, todo, seen).1 :: exists t :: t in todo && Reaches(g, t, m)
    decreases |g.Keys - seen|, |todo|
  {
    hide Dfs, Closed, Reaches;
    if todo == [] {
      DfsOld(g, todo, seen);
    } else if todo[0] in seen {
      DfsOld(g, todo, seen);
      DfsFrom(g, todo[1..], seen);
    } else {
      var t := todo[0];
      ImportsInside(g, t);
      DfsNew(g, todo, seen);
      ReachesItself(g, t);
      forall x | x in g[t]
        ensures Reaches(g, t, x)
      {
        ReachesImport(g, t, t, x);
      }
      DfsReaches(g, g[t], seen + {t}, t);
      DfsFrom(g, todo[1..], Dfs(g, g[t], seen + {t}).0);
      assert t in todo;
    }
  }

  /** A path that avoids a module stays in a set that only it leads out of. */
  lemma {:induction false} PathAvoids(g: Imports, s: set<Ref>, out: Ref, p: seq<Ref>)
    requires Path(g, p) && p[0] in s && forall m, x | m in s && m in g && x in g[m] :: x in s || x == out
    requires forall q | 0 <= q < |p| :: p[q] != out
    ensures p[|p| - 1] in s
  {
    if |p| > 1 {
      forall q | 0 <= q < |p[1..]|
        ensures p[1..][q] != out
      {
        assert p[1..][q] == p[q + 1];
      }
      PathAvoids(g, s, out, p[1..]);
    }
  }

  /** Imports are initialised in the order in which they are listed: with all that they need, the earlier ones come
      before a later one that none of them needs. */
  lemma {:induction false} ImportsInOrder(g: Imports, root: Ref, n: nat, k: nat, i: nat, j: nat)
    requires Closed(g) && root in g && k < n < |g[root]| && g[root][n] != root
    requires forall l | 0 <= l < n :: !Reaches(g, g[root][l], g[root][n])
    requires i < |InitOrder(g, root)| && j < |InitOrder(g, root)|
    requires Reaches(g, g[root][k], InitOrder(g, root)[i]) && InitOrder(g, root)[j] == g[root][n]
    ensures i < j
  {
    hide Dfs, Reaches, Closed;
    var rs, order := g[root], InitOrder(g, root);
    var a, b := rs[..n], rs[n..];
    ImportsInside(g, root);
    InitOrderIsSound(g, root);
    var first := Dfs(g, a, {root});
    OrderSplit(g, root, a, b);
    DfsFrom(g, a, {root});
    assert rs[n] !in first.1;
    NeededInFirst(g, root, a, k, order[i], rs[n]);
    var q :| 0 <= q < |first.1| && first.1[q] == order[i];
    assert order[q] == order[i];
  }

  lemma {:induction false} OrderSplit(g: Imports, root: Ref, a: seq<Ref>, b: seq<Ref>)
    requires Closed(g) && root in g && g[root] == a + b
    requires (forall m | m in a :: m in g) && forall m | m in b :: m in g
    ensures Dfs(g, a, {root}).1 <= InitOrder(g, root)
  {
    hide Dfs;
    DfsNew(g, [root], {});
    assert {} + {root} == {root};
    var inner := Dfs(g, g[root], {root});
    DfsOld(g, [root][1..], inner.0);
    DfsSplit(g, a, b, {root});
    assert InitOrder(g, root) == inner.1 + [root] + [];
  }

  lemma {:induction false} NeededInFirst(g: Imports, root: Ref, a: seq<Ref>, k: nat, y: Ref, x: Ref)
    requires Closed(g) && root in g && (forall m | m in a :: m in g) && k < |a| && Reaches(g, a[k], y)
    requires x in g[root] && !Reaches(g, a[k], x)
    ensures y in Dfs(g, a, {root}).1
  {
    hide Dfs, Closed;
    var first := Dfs(g, a, {root});
    var p :| Path(g, p) && p[0] == a[k] && p[|p| - 1] == y;
    forall q | 0 <= q < |p|
      ensures p[q] != root
    {
      PathPrefix(g, p, q);
      if p[q] == root {
        ReachesImport(g, a[k], root, x);
      }
    }
    SeenOrFinished(g, a, {root});
    FirstIsClosed(g, a, {root});
    PathAvoids(g, Elements(first.1), root, p);
  }

  lemma {:induction false} PathPrefix(g: Imports, p: seq<Ref>, q: nat)
    requires Path(g, p) && q < |p|
    ensures Path(g, p[..q + 1]) && Reaches(g, p[0], p[q])
  {
    hide Reaches;
    if q > 0 {
      PathPrefix(g, p[1..], q - 1);
      assert p[1..][..q] == p[..q + 1][1..];
    }
    PathReaches(g, p[..q + 1]);
  }

  lemma {:induction false} PathReaches(g: Imports, p: seq<Ref>)
    requires Path(g, p)
    ensures Reaches(g, p[0], p[|p| - 1])
  {
  }

  /** What is finished imports only what is finished or was seen before. */
  lemma {:induction false} FirstIsClosed(g: Imports, todo: seq<Ref>, seen: set<Ref>)
    requires Closed(g) && forall m | m in todo :: m in g
    ensures forall m, x | m in Dfs(g, todo, seen).1 && m in g && x in g[m] :: x in Dfs(g, todo, seen).0
    decreases |g.Keys - seen|, |todo|
  {
    hide Dfs, Closed;
    DfsCovers(g, todo, seen);
    if todo == [] || todo[0] in seen {
      DfsOld(g, todo, seen);
      if todo != [] {
        FirstIsClosed(g, todo[1..], seen);
      }
    } else {
      var t := todo[0];
      ImportsInside(g, t);
      DfsNew(g, todo, seen);
      DfsCovers(g, g[t], seen + {t});
      FirstIsClosed(g, g[t], seen + {t});
      FirstIsClosed(g, todo[1..], Dfs(g, g[t], seen + {t}).0);
    }
  }

  /** What is reachable from the root imports only what is lower in rank. */
  ghost predicate Acyclic(g: Imports, root: Ref, rank: Ref -> nat) {
    forall m, x | m in g && x in g[m] && Reaches(g, root, m) :: rank(x) < rank(m)
  }

  /** The order in which modules are destroyed is the exact reverse: on acyclic imports every
      importer comes before what it imports. */
  lemma DestroyOrderIsSound(g: Imports, root: Ref, rank: Ref -> nat)
    requires Closed(g) && root in g && Acyclic(g, root, rank)
    ensures var destroy := Reverse(InitOrder(g, root));
            && |destroy| > 0 && destroy[0] == root && Distinct(destroy)
            && forall i, j | 0 <= i < |destroy| && 0 <= j < |destroy| && destroy[i] in g
            && destroy[j] in g[destroy[i]] :: i < j
  {
    var order := InitOrder(g, root);
    var destroy := Reverse(order);
    InitOrderIsSound(g, root);
    forall i, j | 0 <= i < |destroy| && 0 <= j < |destroy| && destroy[i] in g && destroy[j] in g[destroy[i]]
      ensures i < j
    {
      var a, b := |order| - 1 - i, |order| - 1 - j;
      assert order[a] == destroy[i] && order[b] == destroy[j];
      if Reaches(g, order[b], order[a]) {
        RanksForbidReturn(g, root, rank, order[b], order[a]);
      } else {
        var k :| 0 <= k < a && order[..a][k] == order[b];
        assert order[k] == order[b];
      }
    }
  }

  lemma {:induction false} PathDescends(g: Imports, root: Ref, rank: Ref -> nat, p: seq<Ref>)
    requires Closed(g) && Path(g, p) && Acyclic(g, root, rank) && Reaches(g, root, p[0])
    ensures rank(p[|p| - 1]) <= rank(p[0])
  {
    hide Reaches;
    if |p| > 1 {
      ReachesImport(g, root, p[0], p[1]);
      PathDescends(g, root, rank, p[1..]);
    }
  }

  lemma RanksForbidReturn(g: Imports, root: Ref, rank: Ref -> nat, x: Ref, m: Ref)
    requires Closed(g) && m in g && x in g[m] && Acyclic(g, root, rank) && Reaches(g, root, m)
    ensures !Reaches(g, x, m)
  {
    ReachesImport(g, root, m, x);
    forall p | Path(g, p) && p[0] == x
      ensures p[|p| - 1] != m
    {
      PathDescends(g, root, rank, p);
    }
  }
}
