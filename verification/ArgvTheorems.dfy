/** The spellings of an option are interchangeable, and printed command lines are read back. */
module ArgvTheorems {
  import opened Basics
  import opened ArgvParser

  /** The one spelling that every option has. */
  function Print(x: Item): string
    requires x.Given?
  {
    "--" + x.option.name + if x.literal.Some? then "=" + x.literal.value else ""
  }

  predicate AllGiven(items: seq<Item>) {
    forall x | x in items :: x.Given?
  }

  function Printed(items: seq<Item>): (ts: seq<string>)
    requires AllGiven(items)
    ensures |ts| == |items| && forall i | 0 <= i < |items| :: ts[i] == Print(items[i])
  {
    if items == [] then [] else [Print(items[0])] + Printed(items[1..])
  }

  /** The command line with every option before the separator in its canonical spelling. What cannot be read is
      left as it is. */
  function Canonical(index: Index, argv: seq<string>): seq<string>
    decreases |argv|
  {
    if argv == [] || argv[0] == SEPARATOR then argv
    else if IsLong(argv[0]) then
      var r := LexLong(index, argv);
      if AllGiven(r.0) then Printed(r.0) + Canonical(index, argv[r.1..]) else argv
    else if IsShort(argv[0]) then
      var r := LexShort(index, argv);
      if AllGiven(r.0) then Printed(r.0) + Canonical(index, argv[r.1..]) else argv
    else [argv[0]] + Canonical(index, argv[1..])
  }

  predicate PlainName(name: string) {
    name != "" && '=' !in name
  }

  /** Names can be printed, and shortcuts lead to options that can be found by name. */
  ghost predicate Printable(index: Index) {
    && (forall n | n in index.byName :: PlainName(n) && index.byName[n].name == n)
    && (forall c | c in index.byShortcut :: Named(index, index.byShortcut[c]))
  }

  ghost predicate Named(index: Index, o: InputOption) {
    o.name in index.byName && index.byName[o.name] == o
  }

  /** An occurrence as it can be read: booleans have no value, all others have one. */
  ghost predicate Fitting(index: Index, x: Item) {
    x.Given? && Named(index, x.option) && (x.option.kind == Boolean <==> x.literal.None?)
  }

  lemma {:induction false} FindFirst(s: string, c: char, rest: string)
    requires c !in s
    ensures Find(s + [c] + rest, c) == Some(|s|) && Find(s, c) == None
  {
    if s != "" {
      assert (s + [c] + rest)[1..] == s[1..] + [c] + rest;
      FindFirst(s[1..], c, rest);
    }
  }

  lemma {:induction false} LexPrinted(index: Index, x: Item, rest: seq<string>)
    requires Printable(index) && Fitting(index, x)
    ensures Lex(index, [Print(x)] + rest) == [x] + Lex(index, rest)
  {
    var name, token := x.option.name, Print(x);
    assert PlainName(name) && index.byName[name] == x.option;
    assert token[..2] == "--" && IsLong(token) && token != SEPARATOR;
    var argv := [token] + rest;
    assert argv[1..] == rest;
    FindFirst("--" + name, '=', if x.literal.Some? then x.literal.value else "");
    if x.literal.Some? {
      assert token == "--" + name + ['='] + x.literal.value;
      assert token[2..2 + |name|] == name && token[2 + |name| + 1..] == x.literal.value;
    } else {
      assert token == "--" + name && token[2..] == name;
    }
    assert LexLong(index, argv) == ([x], 1);
  }

  lemma {:induction false} LexAllPrinted(index: Index, items: seq<Item>, rest: seq<string>)
    requires Printable(index) && AllGiven(items) && forall x | x in items :: Fitting(index, x)
    ensures Lex(index, Printed(items) + rest) == items + Lex(index, rest)
    decreases |items|
  {
    hide Lex, Printable, Fitting;
    if items == [] {
      assert Printed(items) + rest == rest && items + Lex(index, rest) == Lex(index, rest);
    } else {
      LexAllPrinted(index, items[1..], rest);
      LexPrinted(index, items[0], Printed(items[1..]) + rest);
      assert Printed(items) + rest == [Print(items[0])] + (Printed(items[1..]) + rest);
      assert [items[0]] + (items[1..] + Lex(index, rest)) == items + Lex(index, rest);
    }
  }

  lemma {:induction false} FlagsFit(index: Index, body: string)
    requires Printable(index) && AllGiven(LexFlags(index, body))
    ensures forall x | x in LexFlags(index, body) :: Fitting(index, x)
  {
    if body != "" {
      var rest := LexFlags(index, body[1..]);
      assert LexFlags(index, body)[0] in LexFlags(index, body);
      assert forall x | x in rest :: x in LexFlags(index, body);
      FlagsFit(index, body[1..]);
    }
  }

  lemma LexShortFits(index: Index, argv: seq<string>)
    requires Printable(index) && argv != [] && IsShort(argv[0]) && AllGiven(LexShort(index, argv).0)
    ensures forall x | x in LexShort(index, argv).0 :: Fitting(index, x)
  {
    var body := argv[0][1..];
    if Find(body, '=').None? && |body| != 1 {
      FlagsFit(index, body);
    } else {
      var items := LexShort(index, argv).0;
      assert items[0] in items;
    }
  }

  lemma LexLongFits(index: Index, argv: seq<string>)
    requires Printable(index) && argv != [] && IsLong(argv[0]) && AllGiven(LexLong(index, argv).0)
    ensures forall x | x in LexLong(index, argv).0 :: Fitting(index, x)
  {
    var items := LexLong(index, argv).0;
    assert items[0] in items;
  }

  lemma {:induction false} CanonicalReadsTheSame(index: Index, argv: seq<string>)
    requires Printable(index)
    ensures Lex(index, Canonical(index, argv)) == Lex(index, argv)
    decreases |argv|
  {
    hide LexLong, LexShort, Printable, Fitting, AllGiven;
    if argv != [] && argv[0] != SEPARATOR {
      if IsLong(argv[0]) {
        var r := LexLong(index, argv);
        if AllGiven(r.0) {
          CanonicalReadsTheSame(index, argv[r.1..]);
          LexLongFits(index, argv);
          LexAllPrinted(index, r.0, Canonical(index, argv[r.1..]));
        }
      } else if IsShort(argv[0]) {
        var r := LexShort(index, argv);
        if AllGiven(r.0) {
          CanonicalReadsTheSame(index, argv[r.1..]);
          LexShortFits(index, argv);
          LexAllPrinted(index, r.0, Canonical(index, argv[r.1..]));
        }
      } else {
        CanonicalReadsTheSame(index, argv[1..]);
        var rest := Canonical(index, argv[1..]);
        assert ([argv[0]] + rest)[1..] == rest;
      }
    }
  }

  lemma {:induction false} IndexIsPrintable(options: seq<InputOption>)
    requires IndexOf(options).Ok? && forall o | o in options :: PlainName(o.name)
    ensures Printable(IndexOf(options).value)
  {
    hide IndexOf;
    IndexFinds(options);
    var index := IndexOf(options).value;
    forall c | c in index.byShortcut
      ensures Named(index, index.byShortcut[c])
    {
      var i :| 0 <= i < |options| && options[i] == index.byShortcut[c];
    }
  }

  function CanonicalArgs(d: Definitions, argv: seq<string>): seq<string> {
    match IndexOf(d.options) case Err(_) => argv case Ok(index) => Canonical(index, argv)
  }

  /** Replacing the spellings of options by the canonical one changes neither the result nor the error. */
  lemma SpellingsDoNotMatter(d: Definitions, argv: seq<string>)
    requires forall o | o in d.options :: PlainName(o.name)
    ensures Parse(d, CanonicalArgs(d, argv)) == Parse(d, argv)
  {
    hide IndexOf, Lex, Canonical, Apply;
    if IndexOf(d.options).Ok? {
      IndexIsPrintable(d.options);
      CanonicalReadsTheSame(IndexOf(d.options).value, argv);
    }
  }

  /** Two command lines that differ only in spelling are parsed alike. */
  lemma SameCanonicalSameResult(d: Definitions, argv: seq<string>, other: seq<string>)
    requires forall o | o in d.options :: PlainName(o.name)
    requires CanonicalArgs(d, argv) == CanonicalArgs(d, other)
    ensures Parse(d, argv) == Parse(d, other)
  {
    SpellingsDoNotMatter(d, argv);
    SpellingsDoNotMatter(d, other);
  }

  // ------------------------------------------------------------------ round trip

  /** The value of an occurrence: a flag is on, a number is read, a text is taken as it is. */
  function ValueOf(d: Definitions, x: Item): Value
    requires x.Given?
  {
    match x.literal
    case None => FlagValue(true)
    case Some(raw) =>
      if x.option.kind == Numeric && d.number(raw).Some? then NumberValue(d.number(raw).value) else TextValue(raw)
  }

  /** The values given for a name, in order. */
  function ValuesFor(d: Definitions, given: seq<Item>, name: string): seq<Value>
    requires AllGiven(given)
  {
    if given == [] then [] else
      ValuesFor(d, given[..|given| - 1], name)
        + if given[|given| - 1].option.name == name then [ValueOf(d, given[|given| - 1])] else []
  }

  /** An option that was not given has its default; without one a flag is off, an array is empty, and anything else
      is absent. */
  ghost predicate Unset(o: InputOption, x: Option<Stored>) {
    match o.default
    case Some(v) => x == Some(v)
    case None =>
      && (o.kind == Boolean ==> x == Some(One(FlagValue(false))))
      && (o.kind != Boolean && o.repeatable ==> x == Some(Many([])))
      && (o.kind != Boolean && !o.repeatable ==> x == None)
  }

  lemma DefaultIsUnset(o: InputOption)
    ensures Unset(o, DefaultFor(o))
  {
  }

  /** What a set of given options leaves for one option: all its values, its only value, or its default. */
  ghost predicate Final(d: Definitions, given: seq<Item>, o: InputOption, x: Option<Stored>)
    requires AllGiven(given)
  {
    var vs := ValuesFor(d, given, o.name);
    if vs == [] then Unset(o, x) else x == Some(if o.repeatable then Many(vs) else One(vs[0]))
  }

  /** Well-typed options: all are declared, values can be read, and only repeatable ones are repeated. */
  ghost predicate WellTyped(d: Definitions, given: seq<Item>) {
    && AllGiven(given)
    && (forall x | x in given :: x.option in d.options && (x.option.kind == Boolean <==> x.literal.None?)
                                 && (x.option.kind == Numeric && x.literal.Some? ==>
                                       d.number(x.literal.value).Some?))
    && (forall i, j | 0 <= i < j < |given| && given[i].option.name == given[j].option.name ::
          given[i].option.repeatable)
  }

  /** The record after the given options. */
  ghost predicate Holds(d: Definitions, given: seq<Item>, out: map<string, Stored>)
    requires AllGiven(given)
  {
    && (forall n :: n in out <==> ValuesFor(d, given, n) != [])
    && (forall o | o in d.options && o.name in out ::
          var vs := ValuesFor(d, given, o.name);
          vs != [] && out[o.name] == if o.repeatable then Many(vs) else One(vs[0]))
  }

  lemma {:induction false} NoValues(d: Definitions, given: seq<Item>, name: string)
    requires AllGiven(given)
    ensures ValuesFor(d, given, name) == [] <==> forall i | 0 <= i < |given| :: given[i].option.name != name
  {
    if given != [] {
      NoValues(d, given[..|given| - 1], name);
    }
  }

  lemma FrontWellTyped(d: Definitions, given: seq<Item>)
    requires WellTyped(d, given) && given != []
    ensures WellTyped(d, given[..|given| - 1]) && given[|given| - 1] in given
  {
    assert forall x | x in given[..|given| - 1] :: x in given;
  }

  lemma {:induction false} ApplyGiven(d: Definitions, given: seq<Item>) returns (out: map<string, Stored>)
    requires WellTyped(d, given) && DistinctNames(d.options)
    ensures Apply(d, Progress(map[], []), given) == Ok(Progress(out, [])) && Holds(d, given, out)
    decreases |given|
  {
    hide DistinctNames, Cast, Holds;
    out := map[];
    if given == [] {
      NothingHolds(d);
    } else {
      var front, x := given[..|given| - 1], given[|given| - 1];
      FrontWellTyped(d, given);
      var before := ApplyGiven(d, front);
      assert given == front + [x];
      ApplyJoin(d, Progress(map[], []), front, [x]);
      ApplySingle(d, Progress(before, []), x);
      NotTwice(d, given, before);
      if x.literal.Some? {
        ValueIsCast(d, x);
      }
      out := Record(before, x.option, ValueOf(d, x)).value;
      RecordHolds(d, front, x, before, out);
    }
  }

  lemma ValueIsCast(d: Definitions, x: Item)
    requires x.Given? && x.literal.Some? && (x.option.kind == Numeric ==> d.number(x.literal.value).Some?)
    ensures Cast(d, x.option, x.literal.value) == Ok(ValueOf(d, x))
  {
  }

  lemma NothingHolds(d: Definitions)
    ensures Holds(d, [], map[])
  {
  }

  lemma NotTwice(d: Definitions, given: seq<Item>, before: map<string, Stored>)
    requires WellTyped(d, given) && DistinctNames(d.options) && given != []
    requires AllGiven(given[..|given| - 1]) && Holds(d, given[..|given| - 1], before)
    ensures var o := given[|given| - 1].option; o in d.options && (o.name in before ==> o.repeatable)
  {
    hide DistinctNames, Cast, ValuesFor;
    var front, o := given[..|given| - 1], given[|given| - 1].option;
    assert given[|given| - 1] in given;
    NoValues(d, front, o.name);
    if o.name in before {
      var i :| 0 <= i < |front| && front[i].option.name == o.name;
      assert given[i].option.name == o.name && given[i] in given;
      SameNameSameOption(d.options, given[i].option, o);
    }
  }

  lemma RecordHolds(d: Definitions, front: seq<Item>, x: Item, before: map<string, Stored>, out: map<string, Stored>)
    requires AllGiven(front) && x.Given? && AllGiven(front + [x]) && DistinctNames(d.options) && x.option in d.options
    requires Holds(d, front, before) && Record(before, x.option, ValueOf(d, x)) == Ok(out)
    ensures Holds(d, front + [x], out)
  {
    hide DistinctNames, Cast, ValueOf;
    var o, v := x.option, ValueOf(d, x);
    assert (front + [x])[..|front|] == front;
    assert forall n :: ValuesFor(d, front + [x], n) == ValuesFor(d, front, n) + if n == o.name then [v] else [];
    forall q | q in d.options && q.name in out
      ensures ValuesFor(d, front + [x], q.name) != []
      ensures out[q.name] == if q.repeatable then Many(ValuesFor(d, front + [x], q.name))
              else One(ValuesFor(d, front + [x], q.name)[0])
    {
      if q.name == o.name {
        SameNameSameOption(d.options, q, o);
      }
    }
  }

  lemma SameNameSameOption(options: seq<InputOption>, a: InputOption, b: InputOption)
    requires DistinctNames(options) && a in options && b in options && a.name == b.name
    ensures a == b
  {
  }

  lemma {:induction false} ApplyPositionals(d: Definitions, p: Progress, args: seq<string>)
    ensures Apply(d, p, Positionals(args)) == Ok(p.(args := p.args + args))
    decreases |args|
  {
    if args == [] {
      assert p.args + args == p.args;
    } else {
      assert Positionals(args)[1..] == Positionals(args[1..]);
      ApplyPositionals(d, p.(args := p.args + [args[0]]), args[1..]);
      assert (p.args + [args[0]]) + args[1..] == p.args + args;
    }
  }

  /** Defaults apply exactly to what was not given, and fail exactly for a required option that was not, naming the
      first one. */
  lemma {:induction false} DefaultsMeaning(options: seq<InputOption>, out: map<string, Stored>)
    requires DistinctNames(options)
    ensures match WithDefaults(options, out)
            case Ok(m) => AllRequired(options, out) && Defaulted(options, out, m)
            case Err(e) => MissingOne(options, out, e)
  {
    hide DefaultFor, Defaulted, AllRequired, MissingOne, DistinctNames, WithDefaults;
    DefaultsStep(options, out);
    if options == [] {
      NothingDefaulted(out);
    } else {
      var front, o := options[..|options| - 1], options[|options| - 1];
      FrontDistinct(options);
      DefaultsMeaning(front, out);
      assert options == front + [o];
      match WithDefaults(front, out)
      case Err(e) => MissingStays(front, o, out, e);
      case Ok(m) =>
        NotYetNamed(front, o, out, m);
        RequiredMore(front, o, out);
        if WithDefaults(options, out).Ok? {
          DefaultedMore(front, o, out, m, WithDefaults(options, out).value);
        }
    }
  }

  lemma {:induction false} DefaultsStep(options: seq<InputOption>, out: map<string, Stored>)
    ensures options == [] ==> WithDefaults(options, out) == Result.Ok(out)
    ensures options != [] ==>
              var o := options[|options| - 1];
              WithDefaults(options, out) == match WithDefaults(options[..|options| - 1], out)
                case Err(e) => Err(e)
                case Ok(m) =>
                  if o.name !in m && o.required then Err(Missing(o.name))
                  else Result.Ok(if o.name in m || DefaultFor(o).None? then m else m[o.name := DefaultFor(o).value])
  {
  }

  ghost predicate AllRequired(options: seq<InputOption>, out: map<string, Stored>) {
    forall i | 0 <= i < |options| && options[i].required :: options[i].name in out
  }

  /** The first required option that was not given. */
  ghost predicate FirstMissing(options: seq<InputOption>, out: map<string, Stored>, i: nat)
    requires i < |options|
  {
    && options[i].required && options[i].name !in out
    && forall j | 0 <= j < i && options[j].required :: options[j].name in out
  }

  ghost predicate MissingOne(options: seq<InputOption>, out: map<string, Stored>, e: ParseError) {
    exists i :: 0 <= i < |options| && FirstMissing(options, out, i) && e == Missing(options[i].name)
  }

  lemma MissingStays(front: seq<InputOption>, o: InputOption, out: map<string, Stored>, e: ParseError)
    requires MissingOne(front, out, e)
    ensures MissingOne(front + [o], out, e)
  {
    var i :| 0 <= i < |front| && FirstMissing(front, out, i) && e == Missing(front[i].name);
    assert FirstMissing(front + [o], out, i);
  }

  lemma RequiredMore(front: seq<InputOption>, o: InputOption, out: map<string, Stored>)
    requires AllRequired(front, out)
    ensures AllRequired(front + [o], out) <==> (o.required ==> o.name in out)
    ensures o.required && o.name !in out ==> MissingOne(front + [o], out, Missing(o.name))
  {
    var options := front + [o];
    assert options[|front|] == o && forall i | 0 <= i < |front| :: options[i] == front[i];
    if o.required && o.name !in out {
      assert FirstMissing(options, out, |front|);
    }
  }

  function Entry(m: map<string, Stored>, name: string): Option<Stored> {
    if name in m then Some(m[name]) else None
  }

  /** `m` has what `out` has, and defaults for the options that `out` lacks. */
  ghost predicate Defaulted(options: seq<InputOption>, out: map<string, Stored>, m: map<string, Stored>) {
    && (forall n | n in out :: n in m && m[n] == out[n])
    && (forall n | n in m :: n in out || exists i :: 0 <= i < |options| && options[i].name == n)
    && (forall i | 0 <= i < |options| && options[i].name !in out ::
          Unset(options[i], Entry(m, options[i].name)))
  }

  lemma NothingDefaulted(out: map<string, Stored>)
    ensures Defaulted([], out, out) && AllRequired([], out)
  {
  }

  lemma FrontDistinct(options: seq<InputOption>)
    requires DistinctNames(options) && options != []
    ensures DistinctNames(options[..|options| - 1])
    ensures forall i | 0 <= i < |options| - 1 :: options[i].name != options[|options| - 1].name
  {
  }

  lemma NotYetNamed(front: seq<InputOption>, o: InputOption, out: map<string, Stored>, m: map<string, Stored>)
    requires Defaulted(front, out, m) && forall i | 0 <= i < |front| :: front[i].name != o.name
    ensures o.name in m <==> o.name in out
  {
  }

  lemma DefaultedMore(front: seq<InputOption>, o: InputOption, out: map<string, Stored>, m: map<string, Stored>,
                      next: map<string, Stored>)
    requires Defaulted(front, out, m) && forall i | 0 <= i < |front| :: front[i].name != o.name
    requires next == if o.name in m || DefaultFor(o).None? then m else m[o.name := DefaultFor(o).value]
    ensures Defaulted(front + [o], out, next) && (o.name in m <==> o.name in out)
  {
    hide DefaultFor, Unset;
    DefaultIsUnset(o);
    var options := front + [o];
    assert options[|front|] == o && forall i | 0 <= i < |front| :: options[i] == front[i];
    forall i | 0 <= i < |options| && options[i].name !in out
      ensures Unset(options[i], Entry(next, options[i].name))
    {
      if i < |front| {
        assert options[i] == front[i];
      }
    }
  }

  /** Printing options as `--name=value` or `--name`, then `--` and the arguments, behind a command name, and reading
      the line back gives the name, exactly the given options with the defaults of the others, and the arguments.
      Values may be anything, `=` and dashes included. */
  lemma {:induction false} RoundTrip(d: Definitions, command: string, given: seq<Item>, args: seq<string>,
                                     line: seq<string>)
    requires DistinctNames(d.options) && forall o | o in d.options :: PlainName(o.name)
    requires WellTyped(d, given) && forall i | 0 <= i < |d.options| && d.options[i].required ::
               ValuesFor(d, given, d.options[i].name) != []
    requires !Dashed(command) && line == [command] + Printed(given) + [SEPARATOR] + args
    requires forall t | t in Printed(given) :: !Global(t)
    ensures FirstPlain(Head(line)) == Some(command) && forall t | t in Head(line) :: !Global(t)
    ensures Others(Head(line), false) + line[|Head(line)|..] == Printed(given) + [SEPARATOR] + args
    ensures var r := Parse(d, Printed(given) + [SEPARATOR] + args);
            && r.Ok? && r.value.args == args
            && (forall n | n in r.value.options :: exists i :: 0 <= i < |d.options| && d.options[i].name == n)
            && forall i | 0 <= i < |d.options| ::
                 Final(d, given, d.options[i], Entry(r.value.options, d.options[i].name))
  {
    HeadOfLine(d, command, given, args, line);
    ParsePrinted(d, given, args);
  }

  lemma {:induction false} PrintedLooks(d: Definitions, given: seq<Item>)
    requires AllGiven(given) && (forall x | x in given :: x.option in d.options) && forall o | o in d.options ::
               PlainName(o.name)
    ensures forall t | t in Printed(given) :: Dashed(t) && t != SEPARATOR
  {
    forall t | t in Printed(given)
      ensures Dashed(t) && t != SEPARATOR
    {
      var i :| 0 <= i < |given| && Printed(given)[i] == t;
      assert given[i] in given && PlainName(given[i].option.name);
    }
  }

  lemma {:induction false} HeadIs(ts: seq<string>, rest: seq<string>)
    requires SEPARATOR !in ts
    ensures Head(ts + [SEPARATOR] + rest) == ts
  {
    if ts != [] {
      assert (ts + [SEPARATOR] + rest)[1..] == ts[1..] + [SEPARATOR] + rest;
      HeadIs(ts[1..], rest);
    }
  }

  lemma {:induction false} OthersAre(ts: seq<string>)
    requires forall t | t in ts :: Dashed(t) && !Global(t)
    ensures Others(ts, true) == ts
  {
    if ts != [] {
      OthersAre(ts[1..]);
      assert ts == [ts[0]] + ts[1..];
    }
  }

  lemma {:induction false} HeadOfLine(d: Definitions, command: string, given: seq<Item>, args: seq<string>,
                                      line: seq<string>)
    requires AllGiven(given) && (forall x | x in given :: x.option in d.options) && forall o | o in d.options ::
               PlainName(o.name)
    requires !Dashed(command) && line == [command] + Printed(given) + [SEPARATOR] + args
    requires forall t | t in Printed(given) :: !Global(t)
    ensures FirstPlain(Head(line)) == Some(command) && forall t | t in Head(line) :: !Global(t)
    ensures Others(Head(line), false) + line[|Head(line)|..] == Printed(given) + [SEPARATOR] + args
  {
    hide Printed, Global, PlainName;
    var printed := Printed(given);
    PrintedLooks(d, given);
    CommandFirst(command, printed);
    HeadIs([command] + printed, args);
    assert line[|[command] + printed|..] == [SEPARATOR] + args;
  }

  lemma CommandFirst(command: string, printed: seq<string>)
    requires !Dashed(command) && forall t | t in printed :: Dashed(t) && !Global(t) && t != SEPARATOR
    ensures var head := [command] + printed;
            && SEPARATOR !in head && FirstPlain(head) == Some(command) && Others(head, false) == printed
            && forall t | t in head :: !Global(t)
  {
    var head := [command] + printed;
    assert head[1..] == printed && Dashed(SEPARATOR);
    OthersAre(printed);
  }

  lemma {:induction false} ParsePrinted(d: Definitions, given: seq<Item>, args: seq<string>)
    requires DistinctNames(d.options) && forall o | o in d.options :: PlainName(o.name)
    requires WellTyped(d, given) && forall i | 0 <= i < |d.options| && d.options[i].required ::
               ValuesFor(d, given, d.options[i].name) != []
    ensures var r := Parse(d, Printed(given) + [SEPARATOR] + args);
            && r.Ok? && r.value.args == args
            && (forall n | n in r.value.options :: exists i :: 0 <= i < |d.options| && d.options[i].name == n)
            && forall i | 0 <= i < |d.options| ::
                 Final(d, given, d.options[i], Entry(r.value.options, d.options[i].name))
  {
    hide DistinctNames, IndexOf, Lex, Apply, WithDefaults, Cast, DefaultFor, Printable, Fitting, ValuesFor,
      Positionals, Printed;
    IndexAccepts(d.options);
    IndexIsPrintable(d.options);
    var index := IndexOf(d.options).value;
    var out := ApplyGiven(d, given);
    GivenFits(d, given);
    var tail := [SEPARATOR] + args;
    LexAllPrinted(index, given, tail);
    LexTail(index, args);
    ApplyJoin(d, Progress(map[], []), given, Positionals(args));
    ApplyPositionals(d, Progress(out, []), args);
    assert [] + args == args;
    assert Printed(given) + [SEPARATOR] + args == Printed(given) + tail;
    DefaultsMeaning(d.options, out);
    KnownNames(d, given, out);
    assert forall i | 0 <= i < |d.options| :: d.options[i] in d.options;
  }

  lemma {:induction false} LexTail(index: Index, args: seq<string>)
    ensures Lex(index, [SEPARATOR] + args) == Positionals(args)
  {
    assert ([SEPARATOR] + args)[1..] == args;
  }

  lemma GivenFits(d: Definitions, given: seq<Item>)
    requires WellTyped(d, given) && IndexOf(d.options).Ok?
    ensures forall x | x in given :: Fitting(IndexOf(d.options).value, x)
  {
    hide IndexOf;
    IndexFinds(d.options);
    forall x | x in given
      ensures Fitting(IndexOf(d.options).value, x)
    {
      var i :| 0 <= i < |d.options| && d.options[i] == x.option;
    }
  }

  lemma KnownNames(d: Definitions, given: seq<Item>, out: map<string, Stored>)
    requires WellTyped(d, given) && Holds(d, given, out)
    ensures forall n | n in out :: exists i :: 0 <= i < |d.options| && d.options[i].name == n
  {
    forall n | n in out
      ensures exists i :: 0 <= i < |d.options| && d.options[i].name == n
    {
      NoValues(d, given, n);
      var j :| 0 <= j < |given| && given[j].option.name == n;
      assert given[j] in given;
      var i :| 0 <= i < |d.options| && d.options[i] == given[j].option;
    }
  }
}
