/** The command-line parser: a scan for global flags, and a parser driven by option definitions. */
module ArgvParser {
  import opened Basics

  datatype Kind = Boolean | Text | Numeric

  datatype Value = FlagValue(on: bool) | TextValue(text: string) | NumberValue(number: int)

  datatype Stored = One(value: Value) | Many(values: seq<Value>)

  datatype InputOption = InputOption(name: string, shortcut: Option<string>, kind: Kind, repeatable: bool,
                                     required: bool, default: Option<Stored>)

  /** The options of a command. `number` is how the language reads a finite number; its results are compared only. */
  datatype Definitions = Definitions(options: seq<InputOption>, number: string -> Option<int>)

  datatype ParseError =
    | DuplicateName(name: string)
    | DuplicateShortcut(shortcut: string)
    | NoSuchOption(spelling: string)
    | TakesNoValue(spelling: string)
    | NeedsValue(spelling: string)
    | CannotCombine(shortcut: string)
    | NotNumeric(name: string, raw: string)
    | GivenTwice(name: string)
    | Missing(name: string)

  datatype Result<T> = Ok(value: T) | Err(error: ParseError)

  // ------------------------------------------------------------------- pre-scan

  const NO_COLOR := "--no-color"
  const HELP := "--help"
  const SHORT_HELP := "-h"
  const SEPARATOR := "--"

  datatype PreScanned = PreScanned(commandName: Option<string>, rest: seq<string>, noColor: bool, help: bool)

  predicate Dashed(token: string) {
    |token| > 0 && token[0] == '-'
  }

  predicate Global(token: string) {
    token == NO_COLOR || token == HELP || token == SHORT_HELP
  }

  /** The tokens before the separator. */
  function Head(argv: seq<string>): (r: seq<string>)
    ensures |r| <= |argv| && SEPARATOR !in r
  {
    if argv == [] || argv[0] == SEPARATOR then [] else [argv[0]] + Head(argv[1..])
  }

  function FirstPlain(ts: seq<string>): Option<string> {
    if ts == [] then None else if Dashed(ts[0]) then FirstPlain(ts[1..]) else Some(ts[0])
  }

  /** The tokens that are neither global flags nor, if it is still to come, the command name. */
  function Others(ts: seq<string>, named: bool): seq<string> {
    if ts == [] then []
    else if Global(ts[0]) then Others(ts[1..], named)
    else if !named && !Dashed(ts[0]) then Others(ts[1..], true)
    else [ts[0]] + Others(ts[1..], named)
  }

  /** Global flags count only before the separator; the first token there without a dash is the command. Everything
      else is left as it was, the separator and what follows it included. */
  method PreScanArgv(argv: seq<string>) returns (r: PreScanned)
    ensures r.noColor <==> NO_COLOR in Head(argv)
    ensures r.help <==> HELP in Head(argv) || SHORT_HELP in Head(argv)
    ensures r.commandName == FirstPlain(Head(argv))
    ensures r.rest == Others(Head(argv), false) + argv[|Head(argv)|..]
  {
    hide Head, FirstPlain, Others, Dashed, Global;
    HeadBegins(argv);
    var commandName: Option<string> := None;
    var rest: seq<string> := [];
    var noColor, help, separatorSeen := false, false, false;
    ghost var seen: seq<string> := [];
    for i := 0 to |argv|
      invariant |seen| <= i && seen == argv[..|seen|] && noColor == (NO_COLOR in seen)
                && help == (HELP in seen || SHORT_HELP in seen)
      invariant commandName == FirstPlain(seen) && rest == Others(seen, false) + argv[|seen|..i]
      invariant if separatorSeen then Head(argv) == seen else |seen| == i && Head(argv) == seen + Head(argv[i..])
    {
      var token := argv[i];
      HeadStep(argv, i, seen);
      if separatorSeen {
        assert argv[|seen|..i + 1] == argv[|seen|..i] + [token];
        rest := rest + [token];
        continue;
      }
      if token == SEPARATOR {
        separatorSeen := true;
        assert argv[i..i + 1] == [token];
        rest := rest + [token];
        continue;
      }
      GlobalTokens();
      OneMoreToken(seen, token);
      seen := seen + [token];
      if token == NO_COLOR {
        noColor := true;
        continue;
      }
      if token == HELP || token == SHORT_HELP {
        help := true;
        continue;
      }
      if commandName == None && !Dashed(token) {
        commandName := Some(token);
        continue;
      }
      rest := rest + [token];
    }
    assert Head(argv) == seen && argv[|seen|..|argv|] == argv[|seen|..];
    r := PreScanned(commandName, rest, noColor, help);
  }

  lemma {:induction false} HeadBegins(argv: seq<string>)
    ensures argv[0..] == argv && [] + Head(argv) == Head(argv) && Head([]) == [] && FirstPlain([]) == None
            && Others([], false) == []
    ensures argv[|argv|..] == []
  {
  }

  lemma {:induction false} HeadStep(argv: seq<string>, i: nat, seen: seq<string>)
    requires i < |argv|
    ensures Head(argv) == seen + Head(argv[i..]) ==>
              if argv[i] == SEPARATOR then Head(argv) == seen
                  else Head(argv) == (seen + [argv[i]]) + Head(argv[i + 1..])
  {
    assert argv[i..][1..] == argv[i + 1..];
  }

  lemma GlobalTokens()
    ensures forall t: string :: Global(t) <==> t == NO_COLOR || t == HELP || t == SHORT_HELP
    ensures Dashed(NO_COLOR) && Dashed(HELP) && Dashed(SHORT_HELP)
  {
  }

  lemma {:induction false} OneMoreToken(ts: seq<string>, token: string)
    ensures FirstPlain(ts + [token]) ==
              if FirstPlain(ts).Some? then FirstPlain(ts) else if Dashed(token) then None else Some(token)
    ensures Others(ts + [token], false) ==
              Others(ts, false) + if Global(token) || (FirstPlain(ts).None? && !Dashed(token)) then [] else [token]
  {
    OneMorePlain(ts, token);
    OneMoreOther(ts, token, false);
  }

  lemma {:induction false} OneMorePlain(ts: seq<string>, token: string)
    ensures FirstPlain(ts + [token]) ==
              if FirstPlain(ts).Some? then FirstPlain(ts) else if Dashed(token) then None else Some(token)
  {
    if ts != [] {
      assert (ts + [token])[1..] == ts[1..] + [token];
      OneMorePlain(ts[1..], token);
    } else {
      assert [token][1..] == [];
    }
  }

  lemma {:induction false} OneMoreOther(ts: seq<string>, token: string, named: bool)
    ensures Others(ts + [token], named) ==
              Others(ts, named) + if Global(token) || (!named && FirstPlain(ts).None? && !Dashed(token)) then []
                  else [token]
  {
    if ts != [] {
      assert (ts + [token])[1..] == ts[1..] + [token];
      OneMoreOther(ts[1..], token, named);
      OneMoreOther(ts[1..], token, true);
    } else {
      assert [token][1..] == [];
      assert Others([], named) == [] == Others([], true);
    }
  }

  // ----------------------------------------------------------------- definitions

  datatype Index = Index(byName: map<string, InputOption>, byShortcut: map<string, InputOption>)

  predicate HasShortcut(o: InputOption) {
    o.shortcut.Some? && o.shortcut.value != ""
  }

  function IndexOf(options: seq<InputOption>): Result<Index> {
    if options == [] then Ok(Index(map[], map[])) else
      match IndexOf(options[..|options| - 1])
      case Err(e) => Err(e)
      case Ok(index) =>
        var o := options[|options| - 1];
        if o.name in index.byName then Err(DuplicateName(o.name))
        else if !HasShortcut(o) then Ok(index.(byName := index.byName[o.name := o]))
        else if o.shortcut.value in index.byShortcut then Err(DuplicateShortcut(o.shortcut.value))
        else Ok(Index(index.byName[o.name := o], index.byShortcut[o.shortcut.value := o]))
  }

  ghost predicate DistinctNames(options: seq<InputOption>) {
    forall i, j | 0 <= i < j < |options| ::
      && options[i].name != options[j].name
      && (HasShortcut(options[i]) && HasShortcut(options[j]) ==> options[i].shortcut != options[j].shortcut)
  }

  /** An option is found by its name and by its shortcut, and nothing else is. */
  ghost predicate Finds(options: seq<InputOption>, index: Index) {
    && (forall i | 0 <= i < |options| :: options[i].name in index.byName && index.byName[options[i].name] == options[i])
    && (forall i | 0 <= i < |options| && HasShortcut(options[i]) ::
          options[i].shortcut.value in index.byShortcut && index.byShortcut[options[i].shortcut.value] == options[i])
    && (forall n | n in index.byName :: index.byName[n] in options && index.byName[n].name == n)
    && (forall c | c in index.byShortcut :: index.byShortcut[c] in options && index.byShortcut[c].shortcut == Some(c)
          && c != "")
  }

  lemma {:induction false} IndexFinds(options: seq<InputOption>)
    requires IndexOf(options).Ok?
    ensures Finds(options, IndexOf(options).value)
  {
    if options != [] {
      var front, o := options[..|options| - 1], options[|options| - 1];
      IndexFinds(front);
      FindsMore(front, o, IndexOf(front).value, IndexOf(options).value);
      assert options == front + [o];
    }
  }

  lemma FindsMore(front: seq<InputOption>, o: InputOption, before: Index, after: Index)
    requires Finds(front, before) && o.name !in before.byName && after.byName == before.byName[o.name := o]
    requires if HasShortcut(o) then o.shortcut.value !in before.byShortcut
             && after.byShortcut == before.byShortcut[o.shortcut.value := o]
             else after.byShortcut == before.byShortcut
    ensures Finds(front + [o], after)
  {
    var options := front + [o];
    assert forall x | x in front :: x in options;
    assert o in options;
    forall i | 0 <= i < |options|
      ensures options[i].name in after.byName && after.byName[options[i].name] == options[i]
    {
    }
  }

  /** The definitions are accepted exactly when no name and no shortcut is declared twice. */
  lemma {:induction false} IndexAccepts(options: seq<InputOption>)
    ensures IndexOf(options).Ok? <==> DistinctNames(options)
  {
    if options != [] {
      var front, o := options[..|options| - 1], options[|options| - 1];
      IndexAccepts(front);
      assert options == front + [o];
      assert DistinctNames(options) ==> DistinctNames(front);
      if IndexOf(front).Ok? {
        IndexFinds(front);
        if IndexOf(options).Err? {
          IndexRefuses(front, o, IndexOf(front).value);
        } else {
          IndexTakes(front, o, IndexOf(front).value);
        }
      }
    }
  }

  lemma IndexTakes(front: seq<InputOption>, o: InputOption, index: Index)
    requires DistinctNames(front) && Finds(front, index)
    requires o.name !in index.byName && (HasShortcut(o) ==> o.shortcut.value !in index.byShortcut)
    ensures DistinctNames(front + [o])
  {
  }

  lemma IndexRefuses(front: seq<InputOption>, o: InputOption, index: Index)
    requires o.name in index.byName || (HasShortcut(o) && o.shortcut.value in index.byShortcut)
    requires Finds(front, index)
    ensures !DistinctNames(front + [o])
  {
    var options := front + [o];
    var x := if o.name in index.byName then index.byName[o.name] else index.byShortcut[o.shortcut.value];
    var i :| 0 <= i < |front| && front[i] == x;
    assert options[i] == x && options[|front|] == o;
  }

  method IndexOptions(options: seq<InputOption>) returns (r: Result<Index>)
    ensures r == IndexOf(options)
  {
    var byName: map<string, InputOption> := map[];
    var byShortcut: map<string, InputOption> := map[];
    for i := 0 to |options|
      invariant IndexOf(options[..i]) == Ok(Index(byName, byShortcut))
    {
      var o := options[i];
      assert options[..i + 1][..i] == options[..i];
      if o.name in byName {
        IndexFails(options, i + 1);
        return Err(DuplicateName(o.name));
      }
      byName := byName[o.name := o];
      if HasShortcut(o) {
        if o.shortcut.value in byShortcut {
          IndexFails(options, i + 1);
          return Err(DuplicateShortcut(o.shortcut.value));
        }
        byShortcut := byShortcut[o.shortcut.value := o];
      }
    }
    assert options[..|options|] == options;
    r := Ok(Index(byName, byShortcut));
  }

  lemma {:induction false} IndexFails(options: seq<InputOption>, i: nat)
    requires i <= |options| && IndexOf(options[..i]).Err?
    ensures IndexOf(options) == IndexOf(options[..i])
    decreases |options| - i
  {
    if i < |options| {
      assert options[..i + 1][..i] == options[..i];
      IndexFails(options, i + 1);
    } else {
      assert options[..i] == options;
    }
  }

  // --------------------------------------------------------------------- reading

  /** What a piece of the command line means. */
  datatype Item = Given(option: InputOption, literal: Option<string>) | Positional(text: string)
    | Bad(error: ParseError)

  /** Where a character first occurs. */
  function Find(s: string, c: char): (r: Option<nat>)
    ensures r.Some? ==> r.value < |s| && s[r.value] == c && c !in s[..r.value]
    ensures r.None? ==> c !in s
  {
    if s == "" then None
    else if s[0] == c then Some(0)
    else match Find(s[1..], c) case None => None case Some(i) => assert s[..i + 1] == [s[0]] + s[1..][..i]; Some(i + 1)
  }

  predicate IsLong(token: string) {
    |token| > 2 && token[..2] == "--"
  }

  predicate IsShort(token: string) {
    |token| > 1 && token[0] == '-'
  }

  /** An option that takes a value takes the next token, unless that looks like an option. */
  function NextValue(o: InputOption, spelling: string, argv: seq<string>): (seq<Item>, nat)
    requires argv != []
  {
    if |argv| == 1 || Dashed(argv[1]) then ([Bad(NeedsValue(spelling))], |argv|) else ([Given(o, Some(argv[1]))], 2)
  }

  /** The items of a long option and how many tokens they take; after an error nothing else is read. */
  function LexLong(index: Index, argv: seq<string>): (r: (seq<Item>, nat))
    requires argv != [] && IsLong(argv[0])
    ensures 0 < r.1 <= |argv|
  {
    var eq := Find(argv[0], '=');
    assert argv[0][0] == argv[0][..2][0] && argv[0][1] == argv[0][..2][1];
    var spelling := if eq.Some? then argv[0][2..eq.value] else argv[0][2..];
    if spelling !in index.byName then ([Bad(NoSuchOption(spelling))], |argv|)
    else
      var o := index.byName[spelling];
      if o.kind == Boolean then
        if eq.Some? then ([Bad(TakesNoValue(spelling))], |argv|) else ([Given(o, None)], 1)
      else if eq.Some? then ([Given(o, Some(argv[0][eq.value + 1..]))], 1)
      else NextValue(o, spelling, argv)
  }

  /** The items of several flags in one token. */
  function LexFlags(index: Index, body: string): seq<Item> {
    if body == "" then []
    else if [body[0]] !in index.byShortcut then [Bad(NoSuchOption([body[0]]))]
    else if index.byShortcut[[body[0]]].kind != Boolean then [Bad(CannotCombine([body[0]]))]
    else [Given(index.byShortcut[[body[0]]], None)] + LexFlags(index, body[1..])
  }

  predicate Clean(items: seq<Item>) {
    forall x | x in items :: !x.Bad?
  }

  function LexShort(index: Index, argv: seq<string>): (r: (seq<Item>, nat))
    requires argv != [] && IsShort(argv[0])
    ensures 0 < r.1 <= |argv|
  {
    var body := argv[0][1..];
    var eq := Find(body, '=');
    if eq.Some? then
      var spelling := body[..eq.value];
      if spelling !in index.byShortcut then ([Bad(NoSuchOption(spelling))], |argv|)
      else if index.byShortcut[spelling].kind == Boolean then ([Bad(TakesNoValue(spelling))], |argv|)
      else ([Given(index.byShortcut[spelling], Some(body[eq.value + 1..]))], 1)
    else if |body| == 1 then
      if body !in index.byShortcut then ([Bad(NoSuchOption(body))], |argv|)
      else if index.byShortcut[body].kind == Boolean then ([Given(index.byShortcut[body], None)], 1)
      else NextValue(index.byShortcut[body], body, argv)
    else
      var items := LexFlags(index, body);
      (items, if Clean(items) then 1 else |argv|)
  }

  function Positionals(args: seq<string>): (items: seq<Item>)
    ensures |items| == |args| && forall i | 0 <= i < |args| :: items[i] == Positional(args[i])
  {
    seq(|args|, i requires 0 <= i < |args| => Positional(args[i]))
  }

  function Lex(index: Index, argv: seq<string>): seq<Item>
    decreases |argv|
  {
    if argv == [] then []
    else if argv[0] == SEPARATOR then Positionals(argv[1..])
    else if IsLong(argv[0]) then var r := LexLong(index, argv); r.0 + Lex(index, argv[r.1..])
    else if IsShort(argv[0]) then var r := LexShort(index, argv); r.0 + Lex(index, argv[r.1..])
    else [Positional(argv[0])] + Lex(index, argv[1..])
  }

  // ------------------------------------------------------------------- recording

  datatype Progress = Progress(options: map<string, Stored>, args: seq<string>)

  function Cast(d: Definitions, o: InputOption, raw: string): Result<Value> {
    if o.kind == Numeric then
      match d.number(raw) case None => Err(NotNumeric(o.name, raw)) case Some(n) => Ok(NumberValue(n))
    else Ok(TextValue(raw))
  }

  /** Adds a value: an array option collects, any other refuses a second value. */
  function Record(out: map<string, Stored>, o: InputOption, v: Value): Result<map<string, Stored>> {
    if !o.repeatable then
      if o.name in out then Err(GivenTwice(o.name)) else Ok(out[o.name := One(v)])
    else if o.name in out && out[o.name].Many? then Ok(out[o.name := Many(out[o.name].values + [v])])
    else Ok(out[o.name := Many([v])])
  }

  function ApplyOne(d: Definitions, p: Progress, x: Item): Result<Progress> {
    match x
    case Bad(e) => Err(e)
    case Positional(s) => Ok(p.(args := p.args + [s]))
    case Given(o, literal) =>
      var v := if literal.None? then Ok(FlagValue(true)) else Cast(d, o, literal.value);
      if v.Err? then Err(v.error) else
        match Record(p.options, o, v.value) case Err(e) => Err(e) case Ok(out) => Ok(p.(options := out))
  }

  function Apply(d: Definitions, p: Progress, items: seq<Item>): Result<Progress>
    decreases |items|
  {
    if items == [] then Ok(p) else
      match ApplyOne(d, p, items[0]) case Err(e) => Err(e) case Ok(q) => Apply(d, q, items[1..])
  }

  /** What an option that was not given is set to. */
  function DefaultFor(o: InputOption): Option<Stored> {
    if o.default.Some? then o.default
    else if o.kind == Boolean then Some(One(FlagValue(false)))
    else if o.repeatable then Some(Many([]))
    else None
  }

  function WithDefaults(options: seq<InputOption>, out: map<string, Stored>): Result<map<string, Stored>> {
    if options == [] then Ok(out) else
      match WithDefaults(options[..|options| - 1], out)
      case Err(e) => Err(e)
      case Ok(m) =>
        var o := options[|options| - 1];
        if o.name in m then Ok(m)
        else if o.required then Err(Missing(o.name))
        else match DefaultFor(o) case None => Ok(m) case Some(v) => Ok(m[o.name := v])
  }

  function Parse(d: Definitions, argv: seq<string>): Result<Progress> {
    match IndexOf(d.options)
    case Err(e) => Err(e)
    case Ok(index) =>
      match Apply(d, Progress(map[], []), Lex(index, argv))
      case Err(e) => Err(e)
      case Ok(p) =>
        match WithDefaults(d.options, p.options) case Err(e) => Err(e) case Ok(m) => Ok(Progress(m, p.args))
  }

  lemma {:induction false} ApplyJoin(d: Definitions, p: Progress, a: seq<Item>, b: seq<Item>)
    ensures Apply(d, p, a + b) == match Apply(d, p, a) case Err(e) => Err(e) case Ok(q) => Apply(d, q, b)
    decreases |a|
  {
    if a == [] {
      assert a + b == b;
    } else {
      assert (a + b)[1..] == a[1..] + b;
      var q := ApplyOne(d, p, a[0]);
      if q.Ok? {
        ApplyJoin(d, q.value, a[1..], b);
      }
    }
  }

  lemma {:induction false} ApplySingle(d: Definitions, p: Progress, x: Item)
    ensures Apply(d, p, [x]) == ApplyOne(d, p, x)
  {
    assert [x][1..] == [];
  }

  // -------------------------------------------------------------- the parser itself

  /** The record that the option readers fill. */
  class Output {
    var values: map<string, Stored>

    constructor ()
      ensures values == map[]
    {
      values := map[];
    }

    method Add(o: InputOption, v: Value) returns (error: Option<ParseError>)
      modifies this
      ensures error.None? ==> Record(old(values), o, v) == Ok(values)
      ensures error.Some? ==> Record(old(values), o, v) == Err(error.value)
    {
      error := None;
      if !o.repeatable {
        if o.name in values {
          return Some(GivenTwice(o.name));
        }
        values := values[o.name := One(v)];
        return;
      }
      if o.name in values && values[o.name].Many? {
        values := values[o.name := Many(values[o.name].values + [v])];
      } else {
        values := values[o.name := Many([v])];
      }
    }

    /** One option with its literal, if it has one. */
    method Give(d: Definitions, o: InputOption, literal: Option<string>, ghost args: seq<string>)
      returns (error: Option<ParseError>)
      modifies this
      ensures error.None? ==> Apply(d, Progress(old(values), args), [Given(o, literal)]) == Ok(Progress(values, args))
      ensures error.Some? ==> Apply(d, Progress(old(values), args), [Given(o, literal)]) == Err(error.value)
    {
      ApplySingle(d, Progress(values, args), Given(o, literal));
      var value := if literal.None? then Ok(FlagValue(true)) else Cast(d, o, literal.value);
      if value.Err? {
        return Some(value.error);
      }
      error := Add(o, value.value);
    }
  }

  /** The outcome of reading some tokens: the index after them, with what they say recorded, or an error. */
  ghost predicate Read(d: Definitions, before: map<string, Stored>, after: map<string, Stored>, args: seq<string>,
                       i: nat, lex: (seq<Item>, nat), r: Result<nat>)
  {
    match Apply(d, Progress(before, args), lex.0)
    case Err(e) => r == Err(e)
    case Ok(q) => r == Ok(i + lex.1) && q == Progress(after, args)
  }

  method Consume(d: Definitions, o: InputOption, literal: Option<string>, i: nat, n: nat, out: Output,
                 ghost args: seq<string>)
    returns (r: Result<nat>)
    modifies out
    ensures Read(d, old(out.values), out.values, args, i, ([Given(o, literal)], n), r)
  {
    var error := out.Give(d, o, literal, args);
    r := if error.Some? then Err(error.value) else Ok(i + n);
  }

  method Refuse(d: Definitions, e: ParseError, i: nat, n: nat, out: Output, ghost args: seq<string>)
    returns (r: Result<nat>)
    ensures Read(d, old(out.values), out.values, args, i, ([Bad(e)], n), r)
  {
    ApplySingle(d, Progress(out.values, args), Bad(e));
    r := Err(e);
  }

  method ConsumeNext(d: Definitions, o: InputOption, spelling: string, argv: seq<string>, i: nat, out: Output,
                     ghost args: seq<string>)
    returns (r: Result<nat>)
    requires i < |argv|
    modifies out
    ensures Read(d, old(out.values), out.values, args, i, NextValue(o, spelling, argv[i..]), r)
  {
    if i + 1 == |argv| || Dashed(argv[i + 1]) {
      r := Refuse(d, NeedsValue(spelling), i, |argv| - i, out, args);
    } else {
      r := Consume(d, o, Some(argv[i + 1]), i, 2, out, args);
    }
  }

  method ConsumeLongOption(argv: seq<string>, i: nat, index: Index, d: Definitions, out: Output,
                           ghost args: seq<string>)
    returns (r: Result<nat>)
    requires i < |argv| && IsLong(argv[i])
    modifies out
    ensures Read(d, old(out.values), out.values, args, i, LexLong(index, argv[i..]), r)
  {
    hide Read, Apply;
    var token := argv[i];
    assert token[0] == token[..2][0] && token[1] == token[..2][1];
    var eq := Find(token, '=');
    var spelling := if eq.Some? then token[2..eq.value] else token[2..];
    if spelling !in index.byName {
      r := Refuse(d, NoSuchOption(spelling), i, |argv| - i, out, args);
      return;
    }
    var o := index.byName[spelling];
    if o.kind == Boolean {
      if eq.Some? {
        r := Refuse(d, TakesNoValue(spelling), i, |argv| - i, out, args);
        return;
      }
      r := Consume(d, o, None, i, 1, out, args);
      return;
    }
    if eq.Some? {
      r := Consume(d, o, Some(token[eq.value + 1..]), i, 1, out, args);
      return;
    }
    r := ConsumeNext(d, o, spelling, argv, i, out, args);
  }

  /** Several flags in one token. */
  method ConsumeFlags(body: string, i: nat, n: nat, index: Index, d: Definitions, out: Output, ghost args: seq<string>)
    returns (r: Result<nat>)
    modifies out
    ensures Read(d, old(out.values), out.values, args, i,
                 (LexFlags(index, body), if Clean(LexFlags(index, body)) then 1 else n), r)
  {
    ghost var start := Progress(out.values, args);
    assert body[0..] == body;
    for j := 0 to |body|
      invariant Apply(d, start, LexFlags(index, body)) == Apply(d, Progress(out.values, args),
                    LexFlags(index, body[j..]))
      invariant Clean(LexFlags(index, body)) <==> Clean(LexFlags(index, body[j..]))
    {
      var ch := [body[j]];
      ghost var before := Progress(out.values, args);
      assert body[j..][0] == body[j] && body[j..][1..] == body[j + 1..];
      if ch !in index.byShortcut {
        return Err(NoSuchOption(ch));
      }
      if index.byShortcut[ch].kind != Boolean {
        return Err(CannotCombine(ch));
      }
      ghost var more := LexFlags(index, body[j + 1..]);
      ApplyJoin(d, before, [Given(index.byShortcut[ch], None)], more);
      CleanMore(Given(index.byShortcut[ch], None), more);
      var error := out.Give(d, index.byShortcut[ch], None, args);
      if error.Some? {
        return Err(error.value);
      }
    }
    r := Ok(i + 1);
  }

  lemma CleanMore(x: Item, items: seq<Item>)
    ensures Clean([x] + items) <==> !x.Bad? && Clean(items)
  {
    assert x in [x] + items;
    assert forall y | y in items :: y in [x] + items;
  }

  method ConsumeShortOption(argv: seq<string>, i: nat, index: Index, d: Definitions, out: Output,
                            ghost args: seq<string>)
    returns (r: Result<nat>)
    requires i < |argv| && IsShort(argv[i])
    modifies out
    ensures Read(d, old(out.values), out.values, args, i, LexShort(index, argv[i..]), r)
  {
    hide Read, Apply;
    var body := argv[i][1..];
    var eq := Find(body, '=');
    if eq.Some? {
      var spelling := body[..eq.value];
      if spelling !in index.byShortcut {
        r := Refuse(d, NoSuchOption(spelling), i, |argv| - i, out, args);
      } else if index.byShortcut[spelling].kind == Boolean {
        r := Refuse(d, TakesNoValue(spelling), i, |argv| - i, out, args);
      } else {
        r := Consume(d, index.byShortcut[spelling], Some(body[eq.value + 1..]), i, 1, out, args);
      }
      return;
    }
    if |body| == 1 {
      if body !in index.byShortcut {
        r := Refuse(d, NoSuchOption(body), i, |argv| - i, out, args);
      } else if index.byShortcut[body].kind == Boolean {
        r := Consume(d, index.byShortcut[body], None, i, 1, out, args);
      } else {
        r := ConsumeNext(d, index.byShortcut[body], body, argv, i, out, args);
      }
      return;
    }
    r := ConsumeFlags(body, i, |argv| - i, index, d, out, args);
  }

  /** Options that were not given. */
  method ApplyDefaults(options: seq<InputOption>, out: Output) returns (error: Option<ParseError>)
    modifies out
    ensures error.None? ==> WithDefaults(options, old(out.values)) == Ok(out.values)
    ensures error.Some? ==> WithDefaults(options, old(out.values)) == Err(error.value)
  {
    for i := 0 to |options|
      invariant WithDefaults(options[..i], old(out.values)) == Ok(out.values)
    {
      var o := options[i];
      assert options[..i + 1][..i] == options[..i];
      if o.name in out.values {
        continue;
      }
      if o.required {
        DefaultsFail(options, i + 1, old(out.values));
        return Some(Missing(o.name));
      }
      if o.default.Some? {
        out.values := out.values[o.name := o.default.value];
        continue;
      }
      if o.kind == Boolean {
        out.values := out.values[o.name := One(FlagValue(false))];
        continue;
      }
      if o.repeatable {
        out.values := out.values[o.name := Many([])];
      }
    }
    assert options[..|options|] == options;
    error := None;
  }

  lemma {:induction false} DefaultsFail(options: seq<InputOption>, i: nat, out: map<string, Stored>)
    requires i <= |options| && WithDefaults(options[..i], out).Err?
    ensures WithDefaults(options, out) == WithDefaults(options[..i], out)
    decreases |options| - i
  {
    if i < |options| {
      assert options[..i + 1][..i] == options[..i];
      DefaultsFail(options, i + 1, out);
    } else {
      assert options[..i] == options;
    }
  }

  /** Reads all tokens: options are recorded in `out`, the rest are arguments. */
  method ReadTokens(argv: seq<string>, index: Index, d: Definitions, out: Output) returns (r: Result<seq<string>>)
    modifies out
    ensures match Apply(d, Progress(old(out.values), []), Lex(index, argv))
            case Err(e) => r == Err(e)
            case Ok(p) => r == Ok(p.args) && out.values == p.options
  {
    hide LexLong, LexShort, Lex, Remaining, Apply, IsLong, IsShort;
    var args: seq<string> := [];
    var i, parseFlags := 0, true;
    ghost var all := Apply(d, Progress(out.values, []), Lex(index, argv));
    RemainingAtFirst(index, argv);
    while i < |argv|
      invariant i <= |argv|
      invariant all == Apply(d, Progress(out.values, args), Remaining(index, argv, i, parseFlags))
      decreases |argv| - i
    {
      var token := argv[i];
      RemainingStep(index, argv, i, parseFlags);
      ghost var p := Progress(out.values, args);
      if parseFlags && token == SEPARATOR {
        parseFlags := false;
        i := i + 1;
        continue;
      }
      if parseFlags && IsLong(token) {
        ghost var lex := LexLong(index, argv[i..]);
        ApplyJoin(d, p, lex.0, Remaining(index, argv, i + lex.1, true));
        var next := ConsumeLongOption(argv, i, index, d, out, args);
        if next.Err? {
          return Err(next.error);
        }
        i := next.value;
        continue;
      }
      if parseFlags && IsShort(token) {
        ghost var lex := LexShort(index, argv[i..]);
        ApplyJoin(d, p, lex.0, Remaining(index, argv, i + lex.1, true));
        var next := ConsumeShortOption(argv, i, index, d, out, args);
        if next.Err? {
          return Err(next.error);
        }
        i := next.value;
        continue;
      }
      ApplyJoin(d, p, [Positional(token)], Remaining(index, argv, i + 1, parseFlags));
      ApplySingle(d, p, Positional(token));
      args := args + [token];
      i := i + 1;
    }
    NothingRemains(index, argv, parseFlags, d, Progress(out.values, args));
    r := Ok(args);
  }

  method ParseCommandArgs(argv: seq<string>, d: Definitions) returns (r: Result<Progress>)
    ensures r == Parse(d, argv)
  {
    hide Lex, WithDefaults, IndexOf, Apply;
    var index := IndexOptions(d.options);
    if index.Err? {
      return Err(index.error);
    }
    var out := new Output();
    var args := ReadTokens(argv, index.value, d, out);
    if args.Err? {
      return Err(args.error);
    }
    var error := ApplyDefaults(d.options, out);
    r := if error.Some? then Err(error.value) else Ok(Progress(out.values, args.value));
  }

  function Remaining(index: Index, argv: seq<string>, i: nat, parseFlags: bool): seq<Item>
    requires i <= |argv|
  {
    if parseFlags then Lex(index, argv[i..]) else Positionals(argv[i..])
  }

  lemma RemainingStep(index: Index, argv: seq<string>, i: nat, parseFlags: bool)
    requires i < |argv|
    ensures parseFlags && argv[i] == SEPARATOR ==>
              Remaining(index, argv, i, true) == Remaining(index, argv, i + 1, false)
    ensures parseFlags && argv[i] != SEPARATOR && IsLong(argv[i]) ==>
              var lex := LexLong(index, argv[i..]);
              && i + lex.1 <= |argv| && 0 < lex.1
              && Remaining(index, argv, i, true) == lex.0 + Remaining(index, argv, i + lex.1, true)
    ensures parseFlags && argv[i] != SEPARATOR && !IsLong(argv[i]) && IsShort(argv[i]) ==>
              var lex := LexShort(index, argv[i..]);
              && i + lex.1 <= |argv| && 0 < lex.1
              && Remaining(index, argv, i, true) == lex.0 + Remaining(index, argv, i + lex.1, true)
    ensures !parseFlags || (argv[i] != SEPARATOR && !IsLong(argv[i]) && !IsShort(argv[i])) ==>
              Remaining(index, argv, i, parseFlags) == [Positional(argv[i])] + Remaining(index, argv, i + 1, parseFlags)
  {
    assert argv[i..][1..] == argv[i + 1..];
    if IsLong(argv[i]) {
      assert argv[i..][LexLong(index, argv[i..]).1..] == argv[i + LexLong(index, argv[i..]).1..];
    }
    if IsShort(argv[i]) {
      assert argv[i..][LexShort(index, argv[i..]).1..] == argv[i + LexShort(index, argv[i..]).1..];
    }
  }

  lemma {:induction false} RemainingAtFirst(index: Index, argv: seq<string>)
    ensures Remaining(index, argv, 0, true) == Lex(index, argv)
  {
    assert argv[0..] == argv;
  }

  lemma {:induction false} NothingRemains(index: Index, argv: seq<string>, parseFlags: bool, d: Definitions,
                                          p: Progress)
    ensures Apply(d, p, Remaining(index, argv, |argv|, parseFlags)) == Ok(p)
  {
  }
}
