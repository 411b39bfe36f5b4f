/** The exception filters of an application, kept by exception class in order of priority. */
module ExceptionFilters {
  import opened Basics

  datatype Entry = Entry(exceptionFilter: nat, priority: int)

  /** A filter and the exception class it was registered for. */
  datatype Registration = Registration(target: nat, entry: Entry)

  // -------------------------------------------------------------- specification

  /** The entry goes before the first one of lower priority. */
  function Inserted(cache: seq<Entry>, entry: Entry): seq<Entry> {
    if cache == [] then [entry]
    else if cache[0].priority < entry.priority then [entry] + cache
    else [cache[0]] + Inserted(cache[1..], entry)
  }

  function InsertionsFor(rs: seq<Registration>, target: nat): seq<Entry> {
    if rs == [] then [] else
      var before := InsertionsFor(rs[..|rs| - 1], target);
      if rs[|rs| - 1].target == target then Inserted(before, rs[|rs| - 1].entry) else before
  }

  /** `from` places every registration of the target exactly once. */
  ghost predicate Places(rs: seq<Registration>, target: nat, es: seq<Entry>, from: seq<nat>) {
    && |from| == |es| && Distinct(from)
    && (forall i | 0 <= i < |from| :: from[i] < |rs| && rs[from[i]] == Registration(target, es[i]))
    && (forall k | 0 <= k < |rs| && rs[k].target == target :: k in from)
  }

  /** Higher priorities come first, and equal ones in the order of registration. */
  ghost predicate StablyDescending(es: seq<Entry>, from: seq<nat>) {
    |from| == |es| && forall i, j | 0 <= i < j < |es| ::
      es[j].priority < es[i].priority || (es[i].priority == es[j].priority && from[i] < from[j])
  }

  function Position(cache: seq<Entry>, priority: int): (n: nat)
    ensures n <= |cache|
    ensures forall i | 0 <= i < n :: cache[i].priority >= priority
    ensures n < |cache| ==> cache[n].priority < priority
  {
    if cache == [] || cache[0].priority < priority then 0 else Position(cache[1..], priority) + 1
  }

  lemma {:induction false} InsertedAt(cache: seq<Entry>, entry: Entry, n: nat)
    requires n <= |cache| && (forall i | 0 <= i < n :: cache[i].priority >= entry.priority)
    requires n < |cache| ==> cache[n].priority < entry.priority
    ensures Inserted(cache, entry) == cache[..n] + [entry] + cache[n..]
    decreases |cache|
  {
    if n > 0 {
      InsertedAt(cache[1..], entry, n - 1);
      assert cache[..n] == [cache[0]] + cache[1..][..n - 1] && cache[n..] == cache[1..][n - 1..];
    } else {
      assert cache[..0] == [] && cache[0..] == cache;
    }
  }

  /** Whatever is registered, in whatever order: the entries for a class are its registrations, each exactly once,
      stably sorted by descending priority. */
  lemma {:induction false} InsertionsSortStably(rs: seq<Registration>, target: nat) returns (from: seq<nat>)
    ensures Places(rs, target, InsertionsFor(rs, target), from) && StablyDescending(InsertionsFor(rs, target), from)
  {
    hide Inserted;
    from := [];
    if rs != [] {
      var n := |rs| - 1;
      var before := InsertionsFor(rs[..n], target);
      from := InsertionsSortStably(rs[..n], target);
      if rs[n].target == target {
        var at := Position(before, rs[n].entry.priority);
        InsertedAt(before, rs[n].entry, at);
        PlaceOne(rs[..n], rs[n], before, from, at);
        assert rs[..n] + [rs[n]] == rs;
        from := Spliced<nat>(from, at, n);
      }
    }
  }

  function Spliced<T>(s: seq<T>, at: nat, x: T): (r: seq<T>)
    requires at <= |s|
    ensures |r| == |s| + 1 && r[at] == x
  {
    s[..at] + [x] + s[at..]
  }

  lemma SplicedAt<T>(s: seq<T>, at: nat, x: T, i: nat)
    requires at <= |s| && i < |s| + 1 && i != at
    ensures Spliced(s, at, x)[i] == s[if i < at then i else i - 1]
  {
  }

  /** One more registration of the target, inserted at its place. */
  lemma PlaceOne(rs: seq<Registration>, r: Registration, es: seq<Entry>, from: seq<nat>, at: nat)
    requires at <= |es| == |from| && Places(rs, r.target, es, from) && StablyDescending(es, from)
    requires forall i | 0 <= i < at :: es[i].priority >= r.entry.priority
    requires at < |es| ==> es[at].priority < r.entry.priority
    ensures Places(rs + [r], r.target, Spliced<Entry>(es, at, r.entry), Spliced<nat>(from, at, |rs|))
    ensures StablyDescending(Spliced<Entry>(es, at, r.entry), Spliced<nat>(from, at, |rs|))
  {
    hide Spliced, StablyDescending, Distinct;
    var es', from' := Spliced<Entry>(es, at, r.entry), Spliced<nat>(from, at, |rs|);
    forall i | 0 <= i < |from'|
      ensures from'[i] < |rs| + 1 && (rs + [r])[from'[i]] == Registration(r.target, es'[i])
    {
      if i != at {
        SplicedAt<nat>(from, at, |rs|, i);
        SplicedAt<Entry>(es, at, r.entry, i);
      }
    }
    AllPlaced(rs, r, from, at);
    SplicedDistinct(from, at, |rs|);
    SplicedSorted(es, from, at, r.entry, |rs|);
  }

  lemma AllPlaced(rs: seq<Registration>, r: Registration, from: seq<nat>, at: nat)
    requires at <= |from| && forall k | 0 <= k < |rs| && rs[k].target == r.target :: k in from
    ensures forall k | 0 <= k < |rs| + 1 && (rs + [r])[k].target == r.target :: k in Spliced<nat>(from, at, |rs|)
  {
    hide Spliced;
    forall k | 0 <= k < |rs| + 1 && (rs + [r])[k].target == r.target
      ensures k in Spliced<nat>(from, at, |rs|)
    {
      if k < |rs| {
        assert rs[k].target == r.target && k in from;
        var i :| 0 <= i < |from| && from[i] == k;
        SplicedAt<nat>(from, at, |rs|, if i < at then i else i + 1);
      } else {
        assert Spliced<nat>(from, at, |rs|)[at] == |rs|;
      }
    }
  }

  lemma SplicedDistinct(from: seq<nat>, at: nat, n: nat)
    requires Distinct(from) && at <= |from| && n !in from
    ensures Distinct(Spliced<nat>(from, at, n))
  {
    hide Spliced;
    var from' := Spliced<nat>(from, at, n);
    forall i, j | 0 <= i < j < |from'|
      ensures from'[i] != from'[j]
    {
      if i != at {
        SplicedAt<nat>(from, at, n, i);
      }
      if j != at {
        SplicedAt<nat>(from, at, n, j);
      }
    }
  }

  lemma SplicedSorted(es: seq<Entry>, from: seq<nat>, at: nat, entry: Entry, n: nat)
    requires StablyDescending(es, from) && at <= |es| && forall i | 0 <= i < |from| :: from[i] < n
    requires (forall i | 0 <= i < at :: es[i].priority >= entry.priority)
             && (at < |es| ==> es[at].priority < entry.priority)
    ensures StablyDescending(Spliced<Entry>(es, at, entry), Spliced<nat>(from, at, n))
  {
    hide Spliced;
    var es', from' := Spliced<Entry>(es, at, entry), Spliced<nat>(from, at, n);
    forall i, j | 0 <= i < j < |es'|
      ensures es'[j].priority < es'[i].priority || (es'[i].priority == es'[j].priority && from'[i] < from'[j])
    {
      if i != at {
        SplicedAt<Entry>(es, at, entry, i);
        SplicedAt<nat>(from, at, n, i);
      }
      if j != at {
        SplicedAt<Entry>(es, at, entry, j);
        SplicedAt<nat>(from, at, n, j);
      }
    }
  }

  // -------------------------------------------------------------------- the handler

  /** A mutable list of entries. */
  class EntryList {
    var entries: seq<Entry>

    constructor ()
      ensures entries == []
    {
      entries := [];
    }

    method Insert(entry: Entry)
      modifies this
      ensures entries == Inserted(old(entries), entry)
    {
      var insertAt := FindLower(entries, entry.priority);
      if insertAt.None? {
        InsertedAt(entries, entry, |entries|);
        assert entries[..|entries|] == entries && entries[|entries|..] == [];
        entries := entries + [entry];
      } else {
        InsertedAt(entries, entry, insertAt.value);
        entries := entries[..insertAt.value] + [entry] + entries[insertAt.value..];
      }
    }
  }

  /** The first entry of lower priority. */
  method FindLower(cache: seq<Entry>, priority: int) returns (at: Option<nat>)
    ensures at.None? ==> forall i | 0 <= i < |cache| :: cache[i].priority >= priority
    ensures at.Some? ==> at.value < |cache| && cache[at.value].priority < priority
    ensures at.Some? ==> forall i | 0 <= i < at.value :: cache[i].priority >= priority
  {
    for i := 0 to |cache|
      invariant forall j | 0 <= j < i :: cache[j].priority >= priority
    {
      if cache[i].priority < priority {
        return Some(i);
      }
    }
    return None;
  }

  class ExceptionHandler {
    var handlers: map<nat, EntryList>
    ghost var registered: seq<Registration>

    constructor ()
      ensures Valid() && registered == [] && handlers == map[]
    {
      handlers, registered := map[], [];
    }

    /** Every class has a list of its own, with the insertions made for it. */
    ghost predicate Valid()
      reads this, handlers.Values
    {
      && (forall t, u | t in handlers && u in handlers && handlers[t] == handlers[u] :: t == u)
      && (forall t | t in handlers :: handlers[t].entries == InsertionsFor(registered, t))
      && (forall t :: t !in handlers ==> InsertionsFor(registered, t) == [])
    }

    method GetExceptionFilterEntries(target: nat) returns (list: EntryList)
      requires Valid()
      modifies this
      ensures Valid() && registered == old(registered) && target in handlers && list == handlers[target]
      ensures list in old(handlers.Values) || fresh(list)
      ensures forall t | t in handlers :: t == target || (t in old(handlers) && handlers[t] == old(handlers)[t])
    {
      if target !in handlers {
        var created := new EntryList();
        handlers := handlers[target := created];
      }
      list := handlers[target];
    }

    /** Registers a filter for an exception class. */
    method Register(target: nat, entry: Entry)
      requires Valid()
      modifies this, handlers.Values
      ensures Valid() && registered == old(registered) + [Registration(target, entry)]
    {
      var list := GetExceptionFilterEntries(target);
      list.Insert(entry);
      ghost var before := registered;
      registered := registered + [Registration(target, entry)];
      assert registered[..|registered| - 1] == before;
    }

    /** The filters for an exception class, in the order in which they are called. */
    method FiltersFor(target: nat) returns (es: seq<Entry>)
      requires Valid()
      ensures es == InsertionsFor(registered, target)
      ensures exists from :: Places(registered, target, es, from) && StablyDescending(es, from)
    {
      es := if target in handlers then handlers[target].entries else [];
      ghost var from := InsertionsSortStably(registered, target);
    }
  }
}
