/** How route paths are composed, first for the controller and then for each route. */
module Paths {
  function TrimLeft(s: string): string {
    if s != "" && s[0] == '/' then TrimLeft(s[1..]) else s
  }

  function TrimRight(s: string): string {
    if s != "" && s[|s| - 1] == '/' then TrimRight(s[..|s| - 1]) else s
  }

  /** The segment without the slashes around it. */
  function Trim(s: string): string {
    TrimRight(TrimLeft(s))
  }

  /** The trimmed segments that are not empty. */
  function Parts(paths: seq<string>): seq<string> {
    if paths == [] then [] else (if Trim(paths[0]) == "" then [] else [Trim(paths[0])]) + Parts(paths[1..])
  }

  function Slashed(parts: seq<string>): string {
    if parts == [] then "" else if |parts| == 1 then parts[0] else parts[0] + "/" + Slashed(parts[1..])
  }

  function JoinPaths(paths: seq<string>): string {
    "/" + Slashed(Parts(paths))
  }

  /** A path in metadata: nothing, one, or several. */
  datatype PathOption = Unset | Single(path: string) | List(paths: seq<string>)

  function NormalizePaths(p: PathOption): seq<string> {
    match p case Unset => [] case Single(path) => [path] case List(paths) => paths
  }

  /** Non-empty, with no slash at either end. */
  predicate Bare(s: string) {
    s != "" && s[0] != '/' && s[|s| - 1] != '/'
  }

  lemma {:induction false} TrimLeftEnds(s: string)
    ensures var r := TrimLeft(s); r != "" ==> r[0] != '/' && s != "" && r[|r| - 1] == s[|s| - 1]
  {
    if s != "" && s[0] == '/' {
      TrimLeftEnds(s[1..]);
    }
  }

  lemma {:induction false} TrimRightEnds(s: string)
    ensures var r := TrimRight(s); r != "" ==> r[|r| - 1] != '/' && s != "" && r[0] == s[0]
  {
    if s != "" && s[|s| - 1] == '/' {
      TrimRightEnds(s[..|s| - 1]);
    }
  }

  lemma TrimIsBare(s: string)
    ensures Trim(s) != "" ==> Bare(Trim(s))
  {
    TrimLeftEnds(s);
    TrimRightEnds(TrimLeft(s));
  }

  predicate Slashes(s: string) {
    forall c | c in s :: c == '/'
  }

  /** Trimming takes away slashes and nothing else, and leaves none at either end. */
  lemma TrimTakesSlashes(s: string) returns (before: string, after: string)
    ensures s == before + Trim(s) + after && Slashes(before) && Slashes(after)
    ensures Trim(s) != "" ==> Bare(Trim(s))
  {
    TrimIsBare(s);
    before := TakenLeft(s);
    after := TakenRight(TrimLeft(s));
    assert before + (Trim(s) + after) == before + Trim(s) + after;
  }

  lemma {:induction false} TakenLeft(s: string) returns (before: string)
    ensures s == before + TrimLeft(s) && Slashes(before)
  {
    before := "";
    if s != "" && s[0] == '/' {
      var rest := TakenLeft(s[1..]);
      before := "/" + rest;
      assert s == "/" + s[1..];
    }
  }

  lemma {:induction false} TakenRight(s: string) returns (after: string)
    ensures s == TrimRight(s) + after && Slashes(after)
  {
    after := "";
    if s != "" && s[|s| - 1] == '/' {
      var rest := TakenRight(s[..|s| - 1]);
      after := rest + "/";
      assert s == s[..|s| - 1] + "/";
    }
  }

  lemma BareStays(s: string)
    requires s == "" || Bare(s)
    ensures Trim("/" + s) == s
  {
    assert ("/" + s)[1..] == s;
    assert TrimLeft("/" + s) == TrimLeft(s) == s;
  }

  lemma {:induction false} PartsAreBare(paths: seq<string>)
    ensures forall p | p in Parts(paths) :: Bare(p)
  {
    if paths != [] {
      PartsAreBare(paths[1..]);
      TrimIsBare(paths[0]);
    }
  }

  lemma {:induction false} PartsJoin(a: seq<string>, b: seq<string>)
    ensures Parts(a + b) == Parts(a) + Parts(b)
  {
    if a == [] {
      assert a + b == b;
    } else {
      assert (a + b)[1..] == a[1..] + b;
      PartsJoin(a[1..], b);
    }
  }

  lemma {:induction false} SlashedIsBare(parts: seq<string>)
    requires forall p | p in parts :: Bare(p)
    ensures if parts == [] then Slashed(parts) == "" else Bare(Slashed(parts))
  {
    if parts != [] {
      assert parts[0] in parts;
      SlashedIsBare(parts[1..]);
    }
  }

  lemma {:induction false} SlashedJoin(a: seq<string>, b: seq<string>)
    requires a != [] && b != []
    ensures Slashed(a + b) == Slashed(a) + "/" + Slashed(b)
  {
    if |a| == 1 {
      assert (a + b)[1..] == b;
    } else {
      assert (a + b)[1..] == a[1..] + b;
      SlashedJoin(a[1..], b);
    }
  }

  /** Composing in two stages, as controllers and routes do, is composing at once. */
  lemma TwoStages(xs: seq<string>, ys: seq<string>)
    ensures JoinPaths([JoinPaths(xs)] + ys) == JoinPaths(xs + ys)
  {
    var a, b := Parts(xs), Parts(ys);
    PartsAreBare(xs);
    SlashedIsBare(a);
    BareStays(Slashed(a));
    PartsJoin(xs, ys);
    PartsJoin([JoinPaths(xs)], ys);
    assert [JoinPaths(xs)][1..] == [];
    if a == [] {
      assert a + b == b && [] + b == b;
    } else {
      assert Parts([JoinPaths(xs)]) == [Slashed(a)];
      if b == [] {
        assert a + b == a && [Slashed(a)] + b == [Slashed(a)];
      } else {
        SlashedJoin([Slashed(a)], b);
        SlashedJoin(a, b);
      }
    }
  }

  /** A composed path starts with exactly one slash and, unless it is the root, does not end with one; composing it
      alone changes nothing. */
  lemma JoinedShape(xs: seq<string>)
    ensures var r := JoinPaths(xs);
            && r[0] == '/' && (|r| > 1 ==> r[1] != '/' && r[|r| - 1] != '/')
            && JoinPaths([r]) == r
    ensures JoinPaths(xs) == "/" <==> forall x | x in xs :: Trim(x) == ""
  {
    PartsAreBare(xs);
    SlashedIsBare(Parts(xs));
    TwoStages(xs, []);
    assert [JoinPaths(xs)] + [] == [JoinPaths(xs)] && xs + [] == xs;
    NoParts(xs);
  }

  lemma {:induction false} NoParts(xs: seq<string>)
    ensures Parts(xs) == [] <==> forall x | x in xs :: Trim(x) == ""
  {
    if xs != [] {
      NoParts(xs[1..]);
      assert xs == [xs[0]] + xs[1..];
    }
  }

  lemma {:induction false} SlashedMore(parts: seq<string>, p: string)
    ensures Slashed(parts + [p]) == if parts == [] then p else Slashed(parts) + "/" + p
  {
    if parts == [] {
      assert parts + [p] == [p];
    } else {
      assert [p][1..] == [];
      SlashedJoin(parts, [p]);
    }
  }

  /** Each further segment that has something besides slashes is appended behind one slash, in order; others are
      ignored. */
  lemma OneMoreSegment(xs: seq<string>, p: string)
    ensures JoinPaths([]) == "/"
    ensures JoinPaths(xs + [p]) ==
              if Trim(p) == "" then JoinPaths(xs)
              else (if JoinPaths(xs) == "/" then "" else JoinPaths(xs)) + "/" + Trim(p)
  {
    hide Trim, Slashed, Parts, Bare;
    PartsJoin(xs, [p]);
    OnePart(p);
    PartsAreBare(xs);
    SlashedIsBare(Parts(xs));
    if Trim(p) == "" {
      assert Parts(xs) + [] == Parts(xs);
    } else {
      SlashedMore(Parts(xs), Trim(p));
      RootIsShort(Slashed(Parts(xs)));
    }
  }

  lemma {:induction false} OnePart(p: string)
    ensures Parts([p]) == (if Trim(p) == "" then [] else [Trim(p)]) && Parts([]) == [] && Slashed([]) == ""
  {
    hide Trim;
    assert [p][1..] == [];
  }

  lemma RootIsShort(s: string)
    ensures ("/" + s == "/" <==> s == "") && (Bare(s) ==> s != "")
  {
    assert |"/" + s| == 1 + |s|;
  }

  /** The path of a route under a global prefix: the prefix, the controller's paths and the route's, each segment
      once. */
  lemma RoutePath(basePath: string, controller: PathOption, route: PathOption)
    ensures JoinPaths([JoinPaths([basePath] + NormalizePaths(controller))] + NormalizePaths(route))
         == JoinPaths([basePath] + NormalizePaths(controller) + NormalizePaths(route))
  {
    TwoStages([basePath] + NormalizePaths(controller), NormalizePaths(route));
  }
}
