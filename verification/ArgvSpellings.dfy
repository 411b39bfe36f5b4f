/** What each way of writing an option means, in terms of the one spelling that every option has, and what is
    refused. */
module ArgvSpellings {
  import opened Basics
  import opened ArgvParser
  import opened ArgvTheorems

  ghost predicate Declares(d: Definitions, o: InputOption) {
    DistinctNames(d.options) && o in d.options && forall x | x in d.options :: PlainName(x.name)
  }

  /** Occurrences that can be printed before the token in question. */
  ghost predicate Readable(d: Definitions, before: seq<Item>) {
    && AllGiven(before)
    && forall x | x in before :: x.option in d.options && (x.option.kind == Boolean <==> x.literal.None?)
  }

  /** A shortcut that can be told from a name and from its value. */
  predicate PlainShortcut(o: InputOption, c: string) {
    o.shortcut == Some(c) && c != "" && c[0] != '-' && '=' !in c
  }

  lemma Indexed(d: Definitions, o: InputOption)
    requires Declares(d, o)
    ensures IndexOf(d.options).Ok? && Printable(IndexOf(d.options).value)
    ensures var index := IndexOf(d.options).value;
            && o.name in index.byName && index.byName[o.name] == o
            && forall c | PlainShortcut(o, c) :: c in index.byShortcut && index.byShortcut[c] == o
  {
    hide IndexOf, Printable, DistinctNames;
    IndexAccepts(d.options);
    IndexIsPrintable(d.options);
    IndexFinds(d.options);
    var i :| 0 <= i < |d.options| && d.options[i] == o;
  }

  /** Lines that are read alike after the same options are parsed alike. */
  lemma {:induction false} SameAfter(d: Definitions, o: InputOption, before: seq<Item>, a: seq<string>, b: seq<string>)
    requires Declares(d, o) && Readable(d, before) && IndexOf(d.options).Ok?
    requires Lex(IndexOf(d.options).value, a) == Lex(IndexOf(d.options).value, b)
    ensures Parse(d, Printed(before) + a) == Parse(d, Printed(before) + b)
  {
    hide IndexOf, Lex, Apply, WithDefaults, Printed, DistinctNames;
    ReadableFits(d, before);
    LexAllPrinted(IndexOf(d.options).value, before, a);
    LexAllPrinted(IndexOf(d.options).value, before, b);
  }

  lemma ReadableFits(d: Definitions, before: seq<Item>)
    requires DistinctNames(d.options) && (forall x | x in d.options :: PlainName(x.name)) && Readable(d, before)
    ensures IndexOf(d.options).Ok? && Printable(IndexOf(d.options).value)
    ensures forall x | x in before :: Fitting(IndexOf(d.options).value, x)
  {
    hide IndexOf, Printable, DistinctNames;
    IndexAccepts(d.options);
    IndexIsPrintable(d.options);
    forall x | x in before
      ensures Fitting(IndexOf(d.options).value, x)
    {
      Indexed(d, x.option);
    }
  }

  // -------------------------------------------------------------------- spellings

  /** `-c=v` is `--name=v`. */
  lemma {:induction false} ShortWithEquals(d: Definitions, before: seq<Item>, o: InputOption, c: string, v: string,
                                           rest: seq<string>)
    requires Declares(d, o) && Readable(d, before) && o.kind != Boolean && PlainShortcut(o, c)
    ensures Parse(d, Printed(before) + (["-" + c + "=" + v] + rest))
         == Parse(d, Printed(before) + (["--" + o.name + "=" + v] + rest))
  {
    hide IndexOf, Lex, Parse, Printed, Printable, DistinctNames;
    Indexed(d, o);
    var index := IndexOf(d.options).value;
    LexShortEquals(index, c, v, rest);
    LexLongEquals(index, o, v, rest);
    SameAfter(d, o, before, ["-" + c + "=" + v] + rest, ["--" + o.name + "=" + v] + rest);
  }

  /** `-c v` is `--name=v`, unless `v` looks like an option. */
  lemma {:induction false} ShortWithNext(d: Definitions, before: seq<Item>, o: InputOption, c: string, v: string,
                                         rest: seq<string>)
    requires Declares(d, o) && Readable(d, before) && o.kind != Boolean && PlainShortcut(o, c) && |c| == 1 && !Dashed(v)
    ensures Parse(d, Printed(before) + (["-" + c, v] + rest))
         == Parse(d, Printed(before) + (["--" + o.name + "=" + v] + rest))
  {
    hide IndexOf, Lex, Parse, Printed, Printable, DistinctNames;
    Indexed(d, o);
    var index := IndexOf(d.options).value;
    LexShortNext(index, c, v, rest);
    LexLongEquals(index, o, v, rest);
    SameAfter(d, o, before, ["-" + c, v] + rest, ["--" + o.name + "=" + v] + rest);
  }

  /** `--name v` is `--name=v`, unless `v` looks like an option. */
  lemma {:induction false} LongWithNext(d: Definitions, before: seq<Item>, o: InputOption, v: string, rest: seq<string>)
    requires Declares(d, o) && Readable(d, before) && o.kind != Boolean && !Dashed(v)
    ensures Parse(d, Printed(before) + (["--" + o.name, v] + rest))
         == Parse(d, Printed(before) + (["--" + o.name + "=" + v] + rest))
  {
    hide IndexOf, Lex, Parse, Printed, Printable, DistinctNames;
    Indexed(d, o);
    var index := IndexOf(d.options).value;
    LexLongNext(index, o, v, rest);
    LexLongEquals(index, o, v, rest);
    SameAfter(d, o, before, ["--" + o.name, v] + rest, ["--" + o.name + "=" + v] + rest);
  }

  /** The shortcuts of these flags, one character each. */
  ghost predicate FlagsOf(d: Definitions, body: string, flags: seq<InputOption>) {
    && |body| == |flags| > 0
    && forall i | 0 <= i < |flags| ::
         flags[i] in d.options && flags[i].kind == Boolean && PlainShortcut(flags[i], [body[i]])
  }

  function NamesOf(flags: seq<InputOption>): (ts: seq<string>)
    ensures |ts| == |flags| && forall i | 0 <= i < |ts| :: ts[i] == "--" + flags[i].name
  {
    seq(|flags|, i requires 0 <= i < |flags| => "--" + flags[i].name)
  }

  /** `-abc` is the three flags by name. */
  lemma {:induction false} CombinedFlags(d: Definitions, before: seq<Item>, body: string, flags: seq<InputOption>,
                                         rest: seq<string>)
    requires DistinctNames(d.options) && (forall x | x in d.options :: PlainName(x.name)) && Readable(d, before)
    requires FlagsOf(d, body, flags)
    ensures Parse(d, Printed(before) + (["-" + body] + rest)) == Parse(d, Printed(before) + (NamesOf(flags) + rest))
  {
    hide IndexOf, Lex, Parse, Printed, Printable, DistinctNames;
    ReadableFits(d, before);
    var index := IndexOf(d.options).value;
    assert Declares(d, flags[0]);
    LexCombined(d, index, body, flags, rest);
    LexNames(d, index, flags, rest);
    SameAfter(d, flags[0], before, ["-" + body] + rest, NamesOf(flags) + rest);
  }

  // How the tokens are read.

  lemma {:induction false} LexLongEquals(index: Index, o: InputOption, v: string, rest: seq<string>)
    requires Printable(index) && Named(index, o) && o.kind != Boolean
    ensures Lex(index, ["--" + o.name + "=" + v] + rest) == [Given(o, Some(v))] + Lex(index, rest)
  {
    hide Lex, Printable;
    var x := Given(o, Some(v));
    LexPrinted(index, x, rest);
    assert Print(x) == "--" + o.name + "=" + v;
  }

  lemma {:induction false} LexLongNext(index: Index, o: InputOption, v: string, rest: seq<string>)
    requires Printable(index) && Named(index, o) && o.kind != Boolean && !Dashed(v)
    ensures Lex(index, ["--" + o.name, v] + rest) == [Given(o, Some(v))] + Lex(index, rest)
  {
    var token := "--" + o.name;
    var argv := [token, v] + rest;
    assert PlainName(o.name);
    FindFirst(token, '=', "");
    assert token[..2] == "--" && token[2..] == o.name && IsLong(token) && token != SEPARATOR;
    assert argv[2..] == rest && argv[0] == token && argv[1] == v;
  }

  lemma ShortToken(body: string)
    requires body != "" && body[0] != '-'
    ensures var token := "-" + body;
            !IsLong(token) && IsShort(token) && token != SEPARATOR && token[1..] == body && token[0] == '-'
  {
    var token := "-" + body;
    assert token[1] == body[0];
    if |token| > 2 {
      assert token[..2][1] == token[1];
    }
  }

  lemma {:induction false} LexShortEquals(index: Index, c: string, v: string, rest: seq<string>)
    requires c in index.byShortcut && index.byShortcut[c].kind != Boolean && PlainShortcut(index.byShortcut[c], c)
    ensures Lex(index, ["-" + c + "=" + v] + rest) == [Given(index.byShortcut[c], Some(v))] + Lex(index, rest)
  {
    var body := c + "=" + v;
    var token := "-" + c + "=" + v;
    var argv := [token] + rest;
    assert token == "-" + body;
    ShortToken(body);
    FindFirst(c, '=', v);
    assert body == c + ['='] + v && body[..|c|] == c && body[|c| + 1..] == v;
    assert argv[1..] == rest;
    assert LexShort(index, argv) == ([Given(index.byShortcut[c], Some(v))], 1);
  }

  lemma {:induction false} LexShortNext(index: Index, c: string, v: string, rest: seq<string>)
    requires c in index.byShortcut && index.byShortcut[c].kind != Boolean && PlainShortcut(index.byShortcut[c], c)
    requires |c| == 1 && !Dashed(v)
    ensures Lex(index, ["-" + c, v] + rest) == [Given(index.byShortcut[c], Some(v))] + Lex(index, rest)
  {
    var token := "-" + c;
    var argv := [token, v] + rest;
    ShortToken(c);
    FindFirst(c, '=', "");
    assert argv[2..] == rest && argv[1] == v;
    assert LexShort(index, argv) == ([Given(index.byShortcut[c], Some(v))], 2);
  }

  function Occurrences(flags: seq<InputOption>): (xs: seq<Item>)
    ensures |xs| == |flags| && forall i | 0 <= i < |xs| :: xs[i] == Given(flags[i], None)
  {
    seq(|flags|, i requires 0 <= i < |flags| => Given(flags[i], None))
  }

  lemma {:induction false} LexCombined(d: Definitions, index: Index, body: string, flags: seq<InputOption>,
                                       rest: seq<string>)
    requires DistinctNames(d.options) && (forall x | x in d.options :: PlainName(x.name)) && FlagsOf(d, body, flags)
    requires IndexOf(d.options) == Result.Ok(index)
    ensures Lex(index, ["-" + body] + rest) == Occurrences(flags) + Lex(index, rest)
  {
    hide IndexOf, DistinctNames;
    var token := "-" + body;
    var argv := [token] + rest;
    assert PlainShortcut(flags[0], [body[0]]) && [body[0]][0] == body[0];
    ShortToken(body);
    forall i | 0 <= i < |body|
      ensures body[i] != '=' && [body[i]] in index.byShortcut && index.byShortcut[[body[i]]] == flags[i]
    {
      assert body[i] in [body[i]];
      Indexed(d, flags[i]);
    }
    FindFirst(body, '=', "");
    LexFlagsAre(index, body, flags);
    assert argv[1..] == rest;
    if |body| == 1 {
      assert body == [body[0]] && Occurrences(flags) == [Given(flags[0], None)];
      assert LexShort(index, argv) == (Occurrences(flags), 1);
    } else {
      assert LexShort(index, argv) == (Occurrences(flags), 1);
    }
  }

  lemma {:induction false} LexFlagsAre(index: Index, body: string, flags: seq<InputOption>)
    requires |body| == |flags|
    requires forall i | 0 <= i < |flags| :: flags[i].kind == Boolean
    requires forall i | 0 <= i < |body| :: [body[i]] in index.byShortcut && index.byShortcut[[body[i]]] == flags[i]
    ensures LexFlags(index, body) == Occurrences(flags) && Clean(LexFlags(index, body))
  {
    if body != "" {
      LexFlagsAre(index, body[1..], flags[1..]);
      assert Occurrences(flags) == [Given(flags[0], None)] + Occurrences(flags[1..]);
    }
  }

  lemma {:induction false} LexNames(d: Definitions, index: Index, flags: seq<InputOption>, rest: seq<string>)
    requires Printable(index) && forall i | 0 <= i < |flags| :: flags[i] in d.options && flags[i].kind == Boolean
    requires DistinctNames(d.options) && (forall x | x in d.options :: PlainName(x.name))
    requires IndexOf(d.options) == Result.Ok(index)
    ensures Lex(index, NamesOf(flags) + rest) == Occurrences(flags) + Lex(index, rest)
  {
    hide IndexOf, Lex, Printable, DistinctNames;
    var xs := Occurrences(flags);
    forall x | x in xs
      ensures x.Given? && Fitting(index, x)
    {
      var i :| 0 <= i < |xs| && xs[i] == x;
      Indexed(d, flags[i]);
    }
    LexAllPrinted(index, xs, rest);
    assert NamesOf(flags) == Printed(xs) by {
      forall i | 0 <= i < |flags|
        ensures NamesOf(flags)[i] == Printed(xs)[i]
      {
        assert Printed(xs)[i] == Print(xs[i]) == "--" + flags[i].name + "";
      }
    }
  }

  // -------------------------------------------------------------------- arguments

  /** Tokens without a dash, and the dash alone, are arguments wherever they stand between options. */
  lemma {:induction false} PlainTokensAreArguments(d: Definitions, plain: seq<string>, rest: seq<string>)
    requires forall t | t in plain :: !Dashed(t) || t == "-"
    ensures Parse(d, plain + rest) == match Parse(d, rest) case Err(e) => Err(e)
                                                           case Ok(p) => Result.Ok(p.(args := plain + p.args))
  {
    hide IndexOf, Lex, Apply, WithDefaults;
    if IndexOf(d.options).Ok? {
      var index := IndexOf(d.options).value;
      LexPlain(index, plain, rest);
      ApplyJoin(d, Progress(map[], []), Positionals(plain), Lex(index, rest));
      ApplyPositionals(d, Progress(map[], []), plain);
      assert [] + plain == plain;
      ArgumentsFirst(d, map[], plain, [], Lex(index, rest));
      assert plain + [] == plain;
    }
  }

  lemma {:induction false} LexOnePlain(index: Index, t: string, rest: seq<string>)
    requires !Dashed(t) || t == "-"
    ensures Lex(index, [t] + rest) == [Positional(t)] + Lex(index, rest)
  {
    hide LexLong, LexShort;
    assert ([t] + rest)[1..] == rest && ([t] + rest)[0] == t;
    if |t| > 2 {
      assert t[0] == t[..2][0];
    }
  }

  lemma {:induction false} LexPlain(index: Index, plain: seq<string>, rest: seq<string>)
    requires forall t | t in plain :: !Dashed(t) || t == "-"
    ensures Lex(index, plain + rest) == Positionals(plain) + Lex(index, rest)
  {
    hide Lex;
    if plain == [] {
      assert plain + rest == rest && Positionals(plain) + Lex(index, rest) == Lex(index, rest);
    } else {
      var t := plain[0];
      LexPlain(index, plain[1..], rest);
      LexOnePlain(index, t, plain[1..] + rest);
      assert plain + rest == [t] + (plain[1..] + rest);
      assert Positionals(plain) == [Positional(t)] + Positionals(plain[1..]);
      ConcatAssociative([Positional(t)], Positionals(plain[1..]), Lex(index, rest));
    }
  }

  /** Arguments read before change nothing but the arguments. */
  lemma {:induction false} ArgumentsFirst(d: Definitions, out: map<string, Stored>, plain: seq<string>,
                                          args: seq<string>, items: seq<Item>)
    ensures Apply(d, Progress(out, plain + args), items)
         == match Apply(d, Progress(out, args), items) case Err(e) => Err(e)
                                                       case Ok(p) => Result.Ok(p.(args := plain + p.args))
    decreases |items|
  {
    hide Record, Cast;
    if items != [] {
      var p := ApplyOne(d, Progress(out, args), items[0]);
      if items[0].Positional? {
        assert (plain + args) + [items[0].text] == plain + (args + [items[0].text]);
      }
      if p.Ok? {
        ArgumentsFirst(d, p.value.options, plain, p.value.args, items[1..]);
      }
    }
  }

  // ----------------------------------------------------------------------- errors

  /** After options that can be taken, the first token that cannot be read decides the error. */
  lemma {:induction false} FirstErrorCounts(d: Definitions, before: seq<Item>, line: seq<string>, e: ParseError,
                                            more: seq<Item>)
    requires DistinctNames(d.options) && (forall x | x in d.options :: PlainName(x.name)) && WellTyped(d, before)
    requires IndexOf(d.options).Ok? && Lex(IndexOf(d.options).value, line) == [Bad(e)] + more
    ensures Parse(d, Printed(before) + line) == Err(e)
  {
    hide IndexOf, Lex, Parse, Printed, DistinctNames;
    assert before + [] == before && [] + [Bad(e)] + more == [Bad(e)] + more;
    ErrorAfter(d, before, [], line, e, more);
  }

  lemma {:induction false} ErrorAfter(d: Definitions, before: seq<Item>, flags: seq<Item>, line: seq<string>,
                                      e: ParseError, more: seq<Item>)
    requires DistinctNames(d.options) && (forall x | x in d.options :: PlainName(x.name))
    requires AllGiven(before) && WellTyped(d, before) && WellTyped(d, before + flags)
    requires IndexOf(d.options).Ok? && Lex(IndexOf(d.options).value, line) == flags + [Bad(e)] + more
    ensures Parse(d, Printed(before) + line) == Err(e)
  {
    hide IndexOf, Lex, Apply, WithDefaults, Printed, DistinctNames, Cast;
    assert Readable(d, before);
    ReadableFits(d, before);
    LexAllPrinted(IndexOf(d.options).value, before, line);
    assert before + (flags + [Bad(e)] + more) == (before + flags) + ([Bad(e)] + more);
    var out := ApplyGiven(d, before + flags);
    ApplyJoin(d, Progress(map[], []), before + flags, [Bad(e)] + more);
    BadStops(d, Progress(out, []), e, more);
  }

  lemma {:induction false} BadStops(d: Definitions, p: Progress, e: ParseError, more: seq<Item>)
    ensures Apply(d, p, [Bad(e)] + more) == Err(e)
  {
  }

  /** A name that is not declared. */
  lemma {:induction false} UnknownName(d: Definitions, before: seq<Item>, name: string, value: Option<string>,
                                       rest: seq<string>)
    requires DistinctNames(d.options) && (forall x | x in d.options :: PlainName(x.name)) && WellTyped(d, before)
    requires PlainName(name) && forall x | x in d.options :: x.name != name
    ensures var token := "--" + name + if value.Some? then "=" + value.value else "";
            Parse(d, Printed(before) + ([token] + rest)) == Err(NoSuchOption(name))
  {
    hide IndexOf, Lex, Parse, Printed, DistinctNames, WellTyped;
    IndexAccepts(d.options);
    IndexFinds(d.options);
    var index := IndexOf(d.options).value;
    var token := "--" + name + if value.Some? then "=" + value.value else "";
    LexUnknown(index, name, value, rest);
    var more := Lex(index, ([token] + rest)[1 + |rest|..]);
    FirstErrorCounts(d, before, [token] + rest, NoSuchOption(name), more);
  }

  lemma {:induction false} LexUnknown(index: Index, name: string, value: Option<string>, rest: seq<string>)
    requires PlainName(name) && name !in index.byName
    ensures var token := "--" + name + if value.Some? then "=" + value.value else "";
            Lex(index, [token] + rest) == [Bad(NoSuchOption(name))] + Lex(index, ([token] + rest)[1 + |rest|..])
  {
    var token := "--" + name + if value.Some? then "=" + value.value else "";
    NameOf(name, value);
  }

  /** The name of a long option ends at the first equals sign. */
  lemma NameOf(name: string, value: Option<string>)
    requires PlainName(name)
    ensures var token := "--" + name + if value.Some? then "=" + value.value else "";
            && IsLong(token) && token != SEPARATOR && (Find(token, '=').Some? <==> value.Some?)
            && (value.Some? ==> token[2..Find(token, '=').value] == name
                                && token[Find(token, '=').value + 1..] == value.value)
            && (value.None? ==> token[2..] == name)
  {
    var token := "--" + name + if value.Some? then "=" + value.value else "";
    assert token[..2] == "--";
    FindFirst("--" + name, '=', if value.Some? then value.value else "");
    if value.Some? {
      assert token == "--" + name + ['='] + value.value;
      assert token[2..2 + |name|] == name && token[2 + |name| + 1..] == value.value;
    } else {
      assert token == "--" + name && token[2..] == name;
    }
  }

  /** A flag with a value. */
  lemma {:induction false} FlagWithValue(d: Definitions, before: seq<Item>, o: InputOption, v: string,
                                         rest: seq<string>)
    requires Declares(d, o) && WellTyped(d, before) && o.kind == Boolean
    ensures Parse(d, Printed(before) + (["--" + o.name + "=" + v] + rest)) == Err(TakesNoValue(o.name))
  {
    hide IndexOf, Lex, Parse, Printed, DistinctNames, WellTyped;
    Indexed(d, o);
    var index := IndexOf(d.options).value;
    var line := ["--" + o.name + "=" + v] + rest;
    LexFlagWithValue(index, o, v, rest);
    FirstErrorCounts(d, before, line, TakesNoValue(o.name), Lex(index, line[|line|..]));
  }

  lemma {:induction false} LexFlagWithValue(index: Index, o: InputOption, v: string, rest: seq<string>)
    requires Named(index, o) && o.kind == Boolean && PlainName(o.name)
    ensures var line := ["--" + o.name + "=" + v] + rest;
            Lex(index, line) == [Bad(TakesNoValue(o.name))] + Lex(index, line[|line|..])
  {
    NameOf(o.name, Some(v));
    assert "--" + o.name + "=" + v == "--" + o.name + ("=" + v);
  }

  /** An option at the end of the line, or before a token that looks like an option, has no value. */
  lemma {:induction false} ValueIsMissing(d: Definitions, before: seq<Item>, o: InputOption, rest: seq<string>)
    requires Declares(d, o) && WellTyped(d, before) && o.kind != Boolean && (rest == [] || Dashed(rest[0]))
    ensures Parse(d, Printed(before) + (["--" + o.name] + rest)) == Err(NeedsValue(o.name))
    ensures forall c | PlainShortcut(o, c) && |c| == 1 ::
              Parse(d, Printed(before) + (["-" + c] + rest)) == Err(NeedsValue(c))
  {
    hide IndexOf, Lex, Parse, Printed, DistinctNames;
    Indexed(d, o);
    var index := IndexOf(d.options).value;
    var line := ["--" + o.name] + rest;
    LexNoValue(index, o, rest);
    FirstErrorCounts(d, before, line, NeedsValue(o.name), Lex(index, line[|line|..]));
    forall c | PlainShortcut(o, c) && |c| == 1
      ensures Parse(d, Printed(before) + (["-" + c] + rest)) == Err(NeedsValue(c))
    {
      var short := ["-" + c] + rest;
      LexShortNoValue(index, c, rest);
      FirstErrorCounts(d, before, short, NeedsValue(c), Lex(index, short[|short|..]));
    }
  }

  lemma {:induction false} LexNoValue(index: Index, o: InputOption, rest: seq<string>)
    requires Named(index, o) && o.kind != Boolean && PlainName(o.name) && (rest == [] || Dashed(rest[0]))
    ensures var line := ["--" + o.name] + rest;
            Lex(index, line) == [Bad(NeedsValue(o.name))] + Lex(index, line[|line|..])
  {
    NameOf(o.name, None);
    assert "--" + o.name + "" == "--" + o.name;
  }

  lemma {:induction false} LexShortNoValue(index: Index, c: string, rest: seq<string>)
    requires c in index.byShortcut && index.byShortcut[c].kind != Boolean && PlainShortcut(index.byShortcut[c], c)
    requires |c| == 1 && (rest == [] || Dashed(rest[0]))
    ensures var line := ["-" + c] + rest;
            Lex(index, line) == [Bad(NeedsValue(c))] + Lex(index, line[|line|..])
  {
    var line := ["-" + c] + rest;
    ShortToken(c);
    FindFirst(c, '=', "");
    assert LexShort(index, line) == ([Bad(NeedsValue(c))], |line|);
  }

  /** Among combined flags the first shortcut that is unknown, or takes a value, is refused. */
  lemma {:induction false} CannotBeCombined(d: Definitions, before: seq<Item>, body: string, flags: seq<InputOption>,
                                            c: char, more: string, rest: seq<string>)
    requires DistinctNames(d.options) && (forall x | x in d.options :: PlainName(x.name))
    requires WellTyped(d, before) && WellTyped(d, before + Occurrences(flags)) && (body == "" <==> flags == [])
    requires (body != "" ==> FlagsOf(d, body, flags)) && (body == "" ==> c != '-') && '=' !in [c] + more
    requires body + more != ""
    ensures (forall x | x in d.options :: x.shortcut != Some([c])) ==>
              Parse(d, Printed(before) + (["-" + body + [c] + more] + rest)) == Err(NoSuchOption([c]))
    ensures forall o | o in d.options && o.shortcut == Some([c]) && o.kind != Boolean ::
              Parse(d, Printed(before) + (["-" + body + [c] + more] + rest)) == Err(CannotCombine([c]))
  {
    hide IndexOf, Lex, Parse, Printed, DistinctNames, LexFlags;
    IndexAccepts(d.options);
    IndexFinds(d.options);
    var index := IndexOf(d.options).value;
    var line := ["-" + body + [c] + more] + rest;
    forall i | 0 <= i < |body|
      ensures body[i] != '=' && [body[i]] in index.byShortcut && index.byShortcut[[body[i]]] == flags[i]
    {
      assert body[i] in [body[i]];
      Indexed(d, flags[i]);
    }
    assert body != "" ==> PlainShortcut(flags[0], [body[0]]) && [body[0]][0] == body[0];
    LexNotFlag(index, body, flags, c, more, rest);
    var after := Lex(index, line[|line|..]);
    if forall x | x in d.options :: x.shortcut != Some([c]) {
      ErrorAfter(d, before, Occurrences(flags), line, NoSuchOption([c]), after);
    }
    forall o | o in d.options && o.shortcut == Some([c]) && o.kind != Boolean
      ensures Parse(d, Printed(before) + line) == Err(CannotCombine([c]))
    {
      assert HasShortcut(o);
      var i :| 0 <= i < |d.options| && d.options[i] == o;
      ErrorAfter(d, before, Occurrences(flags), line, CannotCombine([c]), after);
    }
  }

  lemma {:induction false} LexNotFlag(index: Index, body: string, flags: seq<InputOption>, c: char, more: string,
                                      rest: seq<string>)
    requires |body| == |flags| && (body != "" ==> body[0] != '-') && (body == "" ==> c != '-')
    requires forall i | 0 <= i < |flags| :: flags[i].kind == Boolean
    requires forall i | 0 <= i < |body| ::
               body[i] != '=' && [body[i]] in index.byShortcut && index.byShortcut[[body[i]]] == flags[i]
    requires '=' !in [c] + more && body + more != ""
    ensures var line := ["-" + body + [c] + more] + rest;
            && ([c] !in index.byShortcut ==>
                  Lex(index, line) == Occurrences(flags) + [Bad(NoSuchOption([c]))] + Lex(index, line[|line|..]))
            && ([c] in index.byShortcut && index.byShortcut[[c]].kind != Boolean ==>
                  Lex(index, line) == Occurrences(flags) + [Bad(CannotCombine([c]))] + Lex(index, line[|line|..]))
  {
    hide LexFlags, LexLong;
    var whole := body + ([c] + more);
    var line := ["-" + body + [c] + more] + rest;
    assert "-" + body + [c] + more == "-" + whole;
    ShortToken(whole);
    assert '=' !in body;
    FindFirst(whole, '=', "");
    LexFlagsStop(index, body, flags, c, more);
    var items := LexFlags(index, whole);
    assert |whole| != 1;
    if [c] !in index.byShortcut || index.byShortcut[[c]].kind != Boolean {
      assert items[|flags|] in items;
    }
  }

  lemma {:induction false} LexFlagsStop(index: Index, body: string, flags: seq<InputOption>, c: char, more: string)
    requires |body| == |flags|
    requires forall i | 0 <= i < |flags| :: flags[i].kind == Boolean
    requires forall i | 0 <= i < |body| :: [body[i]] in index.byShortcut && index.byShortcut[[body[i]]] == flags[i]
    ensures [c] !in index.byShortcut ==>
              LexFlags(index, body + ([c] + more)) == Occurrences(flags) + [Bad(NoSuchOption([c]))]
    ensures [c] in index.byShortcut && index.byShortcut[[c]].kind != Boolean ==>
              LexFlags(index, body + ([c] + more)) == Occurrences(flags) + [Bad(CannotCombine([c]))]
  {
    var whole := body + ([c] + more);
    if body == "" {
      assert whole[0] == c && Occurrences(flags) == [];
    } else {
      LexFlagsStop(index, body[1..], flags[1..], c, more);
      assert whole[1..] == body[1..] + ([c] + more) && whole[0] == body[0];
      assert Occurrences(flags) == [Given(flags[0], None)] + Occurrences(flags[1..]);
    }
  }

  /** An option that is not an array cannot be given twice, and a number must be one. */
  lemma {:induction false} RefusedValues(d: Definitions, before: seq<Item>, o: InputOption, v: string,
                                         rest: seq<string>)
    requires Declares(d, o) && WellTyped(d, before) && o.kind != Boolean
    ensures o.kind == Numeric && d.number(v).None? ==>
              Parse(d, Printed(before) + (["--" + o.name + "=" + v] + rest)) == Err(NotNumeric(o.name, v))
    ensures (o.kind == Numeric ==> d.number(v).Some?) && !o.repeatable && (exists x :: x in before && x.option == o) ==>
              Parse(d, Printed(before) + (["--" + o.name + "=" + v] + rest)) == Err(GivenTwice(o.name))
  {
    hide IndexOf, Lex, Apply, WithDefaults, Printed, DistinctNames, Printable;
    Indexed(d, o);
    var index := IndexOf(d.options).value;
    var line := ["--" + o.name + "=" + v] + rest;
    assert Readable(d, before);
    ReadableFits(d, before);
    LexLongEquals(index, o, v, rest);
    LexAllPrinted(index, before, line);
    var out := ApplyGiven(d, before);
    ApplyJoin(d, Progress(map[], []), before, [Given(o, Some(v))] + Lex(index, rest));
    ApplyJoin(d, Progress(out, []), [Given(o, Some(v))], Lex(index, rest));
    ApplySingle(d, Progress(out, []), Given(o, Some(v)));
    if exists x :: x in before && x.option == o {
      var x :| x in before && x.option == o;
      var i :| 0 <= i < |before| && before[i] == x;
      NoValues(d, before, o.name);
      assert o.name in out by { GivenIsHeld(d, before, out, o.name); }
    }
  }

  lemma {:induction false} GivenIsHeld(d: Definitions, given: seq<Item>, out: map<string, Stored>, name: string)
    requires AllGiven(given) && Holds(d, given, out) && ValuesFor(d, given, name) != []
    ensures name in out
  {
  }

  // --------------------------------------------------------------------- pre-scan

  /** What is left of tokens without the global flags. */
  function NotGlobal(ts: seq<string>): seq<string> {
    if ts == [] then [] else
      (if ts[0] == "--no-color" || ts[0] == "--help" || ts[0] == "-h" then [] else [ts[0]]) + NotGlobal(ts[1..])
  }

  /** Before the separator, the first token without a dash is the command, and all other tokens but the global flags are
      kept, in order. */
  lemma {:induction false} PreScanKeeps(pre: seq<string>, command: string, post: seq<string>)
    requires (forall t | t in pre :: Dashed(t)) && !Dashed(command)
    ensures FirstPlain(pre + [command] + post) == Some(command)
    ensures Others(pre + [command] + post, false) == NotGlobal(pre) + NotGlobal(post)
  {
    hide NotGlobal;
    var ts := pre + [command] + post;
    NotGlobalOne(ts);
    NotGlobalOne(pre);
    if pre == [] {
      assert ts[1..] == post && ts[0] == command;
      OthersNamed(post);
      assert NotGlobal(pre) + NotGlobal(post) == NotGlobal(post);
    } else {
      assert ts[1..] == pre[1..] + [command] + post && ts[0] == pre[0];
      PreScanKeeps(pre[1..], command, post);
      ConcatAssociative(NotGlobal([pre[0]]), NotGlobal(pre[1..]), NotGlobal(post));
    }
  }

  lemma {:induction false} NotGlobalOne(ts: seq<string>)
    ensures NotGlobal([]) == []
    ensures ts != [] ==> NotGlobal(ts) == NotGlobal([ts[0]]) + NotGlobal(ts[1..])
                         && NotGlobal([ts[0]]) == if Global(ts[0]) then [] else [ts[0]]
  {
    if ts != [] {
      assert [ts[0]][1..] == [];
    }
  }

  lemma {:induction false} OthersNamed(ts: seq<string>)
    ensures Others(ts, true) == NotGlobal(ts)
  {
    if ts != [] {
      OthersNamed(ts[1..]);
    }
  }

  /** Without a command only the global flags are taken away. */
  lemma {:induction false} PreScanWithoutCommand(ts: seq<string>)
    requires forall t | t in ts :: Dashed(t)
    ensures FirstPlain(ts) == None && Others(ts, false) == NotGlobal(ts)
  {
    if ts != [] {
      PreScanWithoutCommand(ts[1..]);
    }
  }

  /** The scan for flags and command ends at the first separator. */
  lemma {:induction false} HeadEnds(ts: seq<string>, rest: seq<string>)
    requires "--" !in ts
    ensures Head(ts) == ts && Head(ts + ["--"] + rest) == ts
  {
    HeadIs(ts, rest);
    HeadIsAll(ts);
  }

  lemma {:induction false} HeadIsAll(ts: seq<string>)
    requires "--" !in ts
    ensures Head(ts) == ts
  {
    if ts != [] {
      HeadIsAll(ts[1..]);
    }
  }
}
