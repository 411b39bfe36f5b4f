/** What formatted markup looks like on a terminal, in terms of the tree that the markup spells. */
module Markup {
  import opened Basics
  import opened Formatter
  import opened Terminal

  // ------------------------------------------------------------------ what is seen

  /** How a character is shown. Without any sequence a terminal uses its default colours and no effects. */
  datatype Look = Look(fg: Color, bg: Color, effects: set<Effect>)

  const PLAIN: Look := Look(Default, Default, {})

  function ForegroundOf(code: string): Option<Color> {
    if code == "30" then Some(Black) else if code == "31" then Some(Red) else if code == "32" then Some(Green)
    else if code == "33" then Some(Yellow) else if code == "34" then Some(Blue) else if code == "35" then Some(Magenta)
    else if code == "36" then Some(Cyan) else if code == "37" then Some(White) else if code == "39" then Some(Default)
    else None
  }

  function BackgroundOf(code: string): Option<Color> {
    if code == "40" then Some(Black) else if code == "41" then Some(Red) else if code == "42" then Some(Green)
    else if code == "43" then Some(Yellow) else if code == "44" then Some(Blue) else if code == "45" then Some(Magenta)
    else if code == "46" then Some(Cyan) else if code == "47" then Some(White) else if code == "49" then Some(Default)
    else None
  }

  function EffectOf(code: string): Option<Effect> {
    if code == "1" then Some(Bold) else if code == "2" then Some(Dim) else if code == "3" then Some(Italic)
    else if code == "4" then Some(Underline) else None
  }

  /** One parameter of a sequence, on top of the look so far. */
  function Rendered(look: Look, code: string): Look {
    if code == "" || code == "0" then PLAIN
    else if ForegroundOf(code).Some? then look.(fg := ForegroundOf(code).value)
    else if BackgroundOf(code).Some? then look.(bg := BackgroundOf(code).value)
    else if EffectOf(code).Some? then look.(effects := look.effects + {EffectOf(code).value})
    else look
  }

  function RenderedAll(look: Look, codes: seq<string>): Look {
    if codes == [] then look else Rendered(RenderedAll(look, codes[..|codes| - 1]), codes[|codes| - 1])
  }

  /** The parameters between the semicolons. */
  function Params(s: string): (r: seq<string>)
    ensures r != []
  {
    if s == "" then [""]
    else if s[0] == ';' then [""] + Params(s[1..])
    else var rest := Params(s[1..]); [[s[0]] + rest[0]] + rest[1..]
  }

  /** The characters on the screen. */
  function Screen(ts: seq<Token>, look: Look): seq<(char, Look)> {
    if ts == [] then []
    else match ts[0]
      case Shown(c) => [(c, look)] + Screen(ts[1..], look)
      case Sgr(params) => Screen(ts[1..], RenderedAll(look, Params(params)))
  }

  function Colored(text: string, look: Look): (cs: seq<(char, Look)>)
    ensures |cs| == |text| && forall i | 0 <= i < |text| :: cs[i] == (text[i], look)
  {
    seq(|text|, i requires 0 <= i < |text| => (text[i], look))
  }

  // ------------------------------------------------------------------ what is meant

  /** Markup. A style is closed by any closing tag, or by none; tags that name no style, or close nothing, are text. */
  datatype Tree =
    | Nothing
    | Text(text: string, next: Tree)
    | Styled(name: string, inside: Tree, close: string, next: Tree)
    | Unclosed(name: string, inside: Tree)
    | Unknown(name: string, next: Tree)
    | Stray(name: string, next: Tree)

  function Opening(name: string): string {
    "<" + name + ">"
  }

  function Closing(name: string): string {
    "</" + name + ">"
  }

  function Spelled(tree: Tree): string {
    match tree
    case Nothing => ""
    case Text(text, next) => text + Spelled(next)
    case Styled(name, inside, close, next) => Opening(name) + (Spelled(inside) + (Closing(close) + Spelled(next)))
    case Unclosed(name, inside) => Opening(name) + Spelled(inside)
    case Unknown(name, next) => Opening(name) + Spelled(next)
    case Stray(name, next) => Closing(name) + Spelled(next)
  }

  /** A tree as markup spells it: text has no tags and stands alone; `nested` is within a style, where every closing tag
      closes something, and `closed` is where every style must be closed. */
  ghost predicate Proper(styles: Styles, tree: Tree, nested: bool, closed: bool) {
    match tree
    case Nothing => true
    case Text(text, next) => text != "" && !next.Text? && Tagless(text) && Proper(styles, next, nested, closed)
    case Styled(name, inside, close, next) =>
      && name in styles && ValidName(name) && ValidName(close)
      && Proper(styles, inside, true, true) && Proper(styles, next, nested, closed)
    case Unclosed(name, inside) => !closed && name in styles && ValidName(name) && Proper(styles, inside, true, false)
    case Unknown(name, next) => name !in styles && ValidName(name) && Proper(styles, next, nested, closed)
    case Stray(name, next) => !nested && ValidName(name) && Proper(styles, next, nested, closed)
  }

  ghost predicate Tagless(text: string) {
    forall t :: !Matches(text, t)
  }

  /** A style on top of another look: its colours replace those below, its effects are added. */
  function Over(look: Look, style: Style): Look {
    Look(if style.fg.Some? then style.fg.value else look.fg, if style.bg.Some? then style.bg.value else look.bg,
         look.effects + set e | e in style.effects)
  }

  /** Each character in the look of the styles around it. Tags that are text are shown plainly. */
  function Meant(styles: Styles, tree: Tree, look: Look): seq<(char, Look)> {
    match tree
    case Nothing => []
    case Text(text, next) => Colored(text, look) + Meant(styles, next, look)
    case Styled(name, inside, _, next) =>
      Meant(styles, inside, if name in styles then Over(look, styles[name]) else look) + Meant(styles, next, look)
    case Unclosed(name, inside) => Meant(styles, inside, if name in styles then Over(look, styles[name]) else look)
    case Unknown(name, next) => Colored(Opening(name), PLAIN) + Meant(styles, next, look)
    case Stray(name, next) => Colored(Closing(name), PLAIN) + Meant(styles, next, look)
  }

  // ----------------------------------------------------------- styles and their codes

  /** The look of open styles, outermost first. */
  function Stacked(stack: seq<Style>): Look {
    if stack == [] then PLAIN else Over(Stacked(stack[..|stack| - 1]), stack[|stack| - 1])
  }

  lemma {:induction false} StackedIs(stack: seq<Style>)
    ensures Stacked(stack).fg == if Foreground(stack).Some? then Foreground(stack).value else Default
    ensures Stacked(stack).bg == if Background(stack).Some? then Background(stack).value else Default
    ensures Stacked(stack).effects == set e | e in AllEffects(stack)
  {
    if stack != [] {
      StackedIs(stack[..|stack| - 1]);
    }
  }

  lemma {:induction false} RenderedJoin(look: Look, a: seq<string>, b: seq<string>)
    ensures RenderedAll(look, a + b) == RenderedAll(RenderedAll(look, a), b)
    decreases |b|
  {
    hide Rendered;
    if b == [] {
      assert a + b == a;
    } else {
      assert (a + b)[..|a + b| - 1] == a + b[..|b| - 1];
      RenderedJoin(look, a, b[..|b| - 1]);
    }
  }

  lemma {:induction false} RenderedForeground(look: Look, c: Color)
    ensures RenderedAll(look, [['3', Digit(c)]]) == look.(fg := c)
  {
    var code: string := ['3', Digit(c)];
    assert [code][..0] == [];
    match c
    case Black => assert code == "30";
    case Red => assert code == "31";
    case Green => assert code == "32";
    case Yellow => assert code == "33";
    case Blue => assert code == "34";
    case Magenta => assert code == "35";
    case Cyan => assert code == "36";
    case White => assert code == "37";
    case Default => assert code == "39";
  }

  lemma {:induction false} RenderedBackground(look: Look, c: Color)
    ensures RenderedAll(look, [['4', Digit(c)]]) == look.(bg := c)
  {
    var code: string := ['4', Digit(c)];
    assert [code][..0] == [];
    assert code[0] == '4';
    assert forall x: char :: code != ['3', x];
    match c
    case Black => assert code == "40";
    case Red => assert code == "41";
    case Green => assert code == "42";
    case Yellow => assert code == "43";
    case Blue => assert code == "44";
    case Magenta => assert code == "45";
    case Cyan => assert code == "46";
    case White => assert code == "47";
    case Default => assert code == "49";
  }

  lemma RenderedEffect(look: Look, e: Effect)
    ensures Rendered(look, EffectCode(e)) == look.(effects := look.effects + {e})
  {
    assert |EffectCode(e)| == 1;
  }

  lemma {:induction false} RenderedEffects(look: Look, es: seq<Effect>)
    ensures RenderedAll(look, EffectCodes(es)) == look.(effects := look.effects + set e | e in es)
  {
    hide Rendered, EffectCode;
    if es == [] {
      assert look.effects + (set e | e in es) == look.effects;
    } else {
      var front, e := es[..|es| - 1], es[|es| - 1];
      RenderedEffects(look, front);
      RenderedEffect(RenderedAll(look, EffectCodes(front)), e);
      var codes := EffectCodes(es);
      assert codes[..|codes| - 1] == EffectCodes(front);
      assert look.effects + (set x | x in es) == (look.effects + set x | x in front) + {e};
    }
  }

  /** The codes of the combined style make the look of the open styles. */
  lemma {:induction false} CodesLook(stack: seq<Style>)
    ensures RenderedAll(PLAIN, Codes(Collapsed(stack))) == Stacked(stack)
  {
    hide RenderedAll, Rendered, Digit, EffectCode, Unique;
    var s := Collapsed(stack);
    var fg: seq<string> := if s.fg.Some? then [['3', Digit(s.fg.value)]] else [];
    var bg: seq<string> := if s.bg.Some? then [['4', Digit(s.bg.value)]] else [];
    RenderedNone();
    StackedIs(stack);
    UniqueIsSet(AllEffects(stack));
    if s.fg.Some? {
      RenderedForeground(PLAIN, s.fg.value);
    }
    var one := RenderedAll(PLAIN, fg);
    if s.bg.Some? {
      RenderedBackground(one, s.bg.value);
    }
    RenderedJoin(PLAIN, fg, bg);
    RenderedJoin(PLAIN, fg + bg, EffectCodes(s.effects));
    RenderedEffects(RenderedAll(PLAIN, fg + bg), s.effects);
    assert (set e | e in s.effects) == set e | e in AllEffects(stack);
    assert {} + (set e | e in s.effects) == set e | e in s.effects;
  }

  lemma RenderedNone()
    ensures forall look :: RenderedAll(look, []) == look
  {
  }

  // -------------------------------------------------------------- reading parameters

  lemma {:induction false} ParamsOne(code: string)
    requires ';' !in code
    ensures Params(code) == [code]
  {
    if code != "" {
      ParamsOne(code[1..]);
      assert [code[1..]][1..] == [] && [code[0]] + code[1..] == code;
    }
  }

  lemma {:induction false} ParamsMore(s: string, code: string)
    requires ';' !in code
    ensures Params(s + ";" + code) == Params(s) + [code]
  {
    var whole := s + ";" + code;
    if s == "" {
      assert whole[0] == ';' && whole[1..] == code;
      ParamsOne(code);
    } else {
      assert whole[1..] == s[1..] + ";" + code && whole[0] == s[0];
      ParamsMore(s[1..], code);
      var rest := Params(s[1..]);
      assert (rest + [code])[0] == rest[0] && (rest + [code])[1..] == rest[1..] + [code];
    }
  }

  lemma {:induction false} ParamsOfJoin(codes: seq<string>)
    requires GoodCodes(codes) && codes != []
    ensures Params(Join(codes)) == codes
  {
    hide Params, GoodCodes;
    var front, code := codes[..|codes| - 1], codes[|codes| - 1];
    LastIsGood(codes);
    if |codes| == 1 {
      ParamsOne(code);
    } else {
      ParamsOfJoin(front);
      ParamsMore(Join(front), code);
      assert codes == front + [code];
    }
  }

  lemma LastIsGood(codes: seq<string>)
    requires GoodCodes(codes) && codes != []
    ensures GoodCodes(codes[..|codes| - 1]) && ';' !in codes[|codes| - 1]
  {
    assert codes[|codes| - 1] in codes;
  }

  // ------------------------------------------------------------- what pieces look like

  function PieceLooks(pieces: seq<Piece>): seq<(char, Look)> {
    if pieces == [] then [] else
      Colored(pieces[0].text, RenderedAll(PLAIN, pieces[0].codes)) + PieceLooks(pieces[1..])
  }

  lemma {:induction false} PieceLooksJoin(a: seq<Piece>, b: seq<Piece>)
    ensures PieceLooks(a + b) == PieceLooks(a) + PieceLooks(b)
  {
    hide RenderedAll;
    if a == [] {
      assert a + b == b;
    } else {
      assert (a + b)[1..] == a[1..] + b;
      PieceLooksJoin(a[1..], b);
    }
  }

  lemma {:induction false} MergedLooks(pieces: seq<Piece>)
    ensures PieceLooks(Merged(pieces)) == PieceLooks(pieces)
  {
    hide RenderedAll;
    if pieces != [] {
      MergedLooks(pieces[1..]);
      var p, rest := pieces[0], Merged(pieces[1..]);
      assert ([p] + rest)[1..] == rest;
      if rest != [] && p.codes == [] && rest[0].codes == [] {
        var both := Piece(p.text + rest[0].text, []);
        assert ([both] + rest[1..])[1..] == rest[1..];
        var look := RenderedAll(PLAIN, []);
        assert Colored(both.text, look) == Colored(p.text, look) + Colored(rest[0].text, look);
      }
    }
  }

  lemma {:induction false} ScreenChars(text: string, rest: seq<Token>, look: Look)
    ensures Screen(Chars(text) + rest, look) == Colored(text, look) + Screen(rest, look)
    decreases |text|
  {
    if text == "" {
      assert Chars(text) + rest == rest;
    } else {
      ScreenChars(text[1..], rest, look);
      assert (Chars(text) + rest)[1..] == Chars(text[1..]) + rest;
      assert Colored(text, look) == [(text[0], look)] + Colored(text[1..], look);
    }
  }

  lemma {:induction false} ScreenPiece(p: Piece, rest: seq<Token>)
    requires GoodCodes(p.codes) && SgrFree(p.text)
    ensures Screen(PieceTokens(p) + rest, PLAIN)
         == Colored(p.text, RenderedAll(PLAIN, p.codes)) + Screen(rest, PLAIN)
  {
    hide Join, GoodCodes, Scan, SgrFree, Rendered, Params, RenderedAll;
    ScanShows(p.text);
    RenderedNone();
    if p.codes == [] {
      ScreenChars(p.text, rest, PLAIN);
    } else {
      ParamsOfJoin(p.codes);
      var after := [Sgr("0")] + rest;
      var ts := PieceTokens(p) + rest;
      assert after[1..] == rest && ts[1..] == Chars(p.text) + after && ts[0] == Sgr(Join(p.codes));
      var look := RenderedAll(PLAIN, p.codes);
      ScreenChars(p.text, after, look);
      ResetIsPlain(look);
    }
  }

  lemma {:induction false} ResetIsPlain(look: Look)
    ensures RenderedAll(look, Params("0")) == PLAIN
  {
    ParamsOne("0");
    assert ["0"][..0] == [];
  }

  lemma {:induction false} ScreenAll(pieces: seq<Piece>)
    requires Coded(pieces) && AllSgrFree(pieces)
    ensures Screen(AllTokens(pieces), PLAIN) == PieceLooks(pieces)
  {
    hide PieceTokens, GoodCodes, SgrFree, RenderedAll;
    if pieces != [] {
      assert pieces[0] in pieces;
      ScreenAll(pieces[1..]);
      ScreenPiece(pieces[0], AllTokens(pieces[1..]));
    }
  }

  lemma {:induction false} ScreenLength(ts: seq<Token>, look: Look)
    ensures |Screen(ts, look)| == |Visible(ts)|
  {
    hide RenderedAll, Params;
    if ts != [] {
      ScreenLength(ts[1..], if ts[0].Shown? then look else RenderedAll(look, Params(ts[0].params)));
    }
  }

  lemma {:induction false} PieceLooksLength(pieces: seq<Piece>)
    ensures |PieceLooks(pieces)| == |Output(pieces, false)|
    ensures forall i | 0 <= i < |PieceLooks(pieces)| :: PieceLooks(pieces)[i].0 == Output(pieces, false)[i]
  {
    hide RenderedAll;
    if pieces != [] {
      PieceLooksLength(pieces[1..]);
    }
  }

  /** The screen shows the pieces, each in the look of its codes, exactly when no stretch of text has a sequence. */
  lemma {:induction false} ScreenShowsPieces(styles: Styles, input: string)
    ensures var pieces := Pieces(styles, input, 0, []);
            Screen(Scan(Output(pieces, true)), PLAIN) == PieceLooks(pieces) <==> AllSgrFree(Merged(pieces))
  {
    hide Pieces, Merged, Scan, SgrFree, PieceTokens, GoodCodes, Apart, Screen, PieceLooks;
    var pieces := Pieces(styles, input, 0, []);
    var merged := Merged(pieces);
    PiecesAreCoded(styles, input, 0, []);
    MergedIsSame(pieces);
    MergedLooks(pieces);
    ScanOutput(merged);
    AllShow(merged);
    ScreenLength(AllTokens(merged), PLAIN);
    PieceLooksLength(pieces);
    if AllSgrFree(merged) {
      ScreenAll(merged);
    }
  }

  // --------------------------------------------------------------- pieces of a suffix

  lemma {:induction false} NameEndShift(a: string, b: string, i: nat)
    requires i <= |b|
    ensures NameEnd(a + b, |a| + i) == |a| + NameEnd(b, i)
    decreases |b| - i
  {
    if i < |b| && NameChar(b[i]) {
      NameEndShift(a, b, i + 1);
    }
  }

  function Shifted(t: Option<Tag>, n: nat): Option<Tag> {
    match t case None => None case Some(x) => Some(Tag(x.start + n, x.end + n, x.closing, x.name))
  }

  lemma TagAtShift(a: string, b: string, i: nat)
    requires i <= |b|
    ensures TagAt(a + b, |a| + i) == Shifted(TagAt(b, i), |a|)
  {
    if i < |b| && b[i] == '<' {
      var closing := i + 1 < |b| && b[i + 1] == '/';
      var from := if closing then i + 2 else i + 1;
      if from < |b| {
        NameEndShift(a, b, from);
        assert (a + b)[|a| + from..|a| + NameEnd(b, from)] == b[from..NameEnd(b, from)];
      }
    }
  }

  lemma {:induction false} NextTagShift(a: string, b: string, i: nat)
    requires i <= |b|
    ensures NextTag(a + b, |a| + i) == Shifted(NextTag(b, i), |a|)
    decreases |b| - i
  {
    hide TagAt;
    TagAtShift(a, b, i);
    if i < |b| && TagAt(b, i).None? {
      NextTagShift(a, b, i + 1);
    }
  }

  lemma {:induction false} PiecesShift(styles: Styles, a: string, b: string, i: nat, stack: seq<Style>)
    requires i <= |b|
    ensures Pieces(styles, a + b, |a| + i, stack) == Pieces(styles, b, i, stack)
    decreases |b| - i
  {
    hide NextTag, Segment, TagText, Restacked;
    NextTagShift(a, b, i);
    if NextTag(b, i).Some? {
      var t := NextTag(b, i).value;
      assert (a + b)[|a| + i..|a| + t.start] == b[i..t.start];
      assert (a + b)[|a| + t.start..|a| + t.end] == b[t.start..t.end];
      var u := NextTag(a + b, |a| + i).value;
      SameTag(styles, stack, t, u, b[t.start..t.end]);
      PiecesShift(styles, a, b, t.end, Restacked(styles, stack, t));
    } else {
      assert (a + b)[|a| + i..] == b[i..];
    }
  }

  lemma SameTag(styles: Styles, stack: seq<Style>, t: Tag, u: Tag, full: string)
    requires t.closing == u.closing && t.name == u.name
    ensures Restacked(styles, stack, t) == Restacked(styles, stack, u)
    ensures TagText(styles, stack, t, full) == TagText(styles, stack, u, full)
  {
  }

  // ------------------------------------------------------------ pieces of what is spelled

  function Tagged(name: string, closing: bool): string {
    if closing then Closing(name) else Opening(name)
  }

  lemma {:induction false} TagIsFound(name: string, closing: bool, rest: string)
    requires ValidName(name)
    ensures var text := Tagged(name, closing);
            NextTag(text + rest, 0) == Some(Tag(0, |text|, closing, name))
  {
    var text := Tagged(name, closing);
    var t := Tag(0, |text|, closing, name);
    assert Matches(text + rest, t);
    PatternIsTag(text + rest, t);
  }

  /** A tag at the beginning. */
  lemma {:induction false} PiecesOfTag(styles: Styles, name: string, closing: bool, rest: string, stack: seq<Style>)
    requires ValidName(name)
    ensures var text := Tagged(name, closing);
            var t := Tag(0, |text|, closing, name);
            Pieces(styles, text + rest, 0, stack)
              == TagText(styles, stack, t, text) + Pieces(styles, rest, 0, Restacked(styles, stack, t))
  {
    hide NextTag, TagText, Restacked, Pieces, Segment, Tagged;
    var text := Tagged(name, closing);
    var t := Tag(0, |text|, closing, name);
    TagIsFound(name, closing, rest);
    EmptyText(stack);
    PiecesStep(styles, text + rest, 0, stack);
    PiecesShift(styles, text, rest, 0, Restacked(styles, stack, t));
    assert (text + rest)[0..|text|] == text && (text + rest)[0..0] == "";
    assert [] + (TagText(styles, stack, t, text) + Pieces(styles, rest, 0, Restacked(styles, stack, t)))
        == TagText(styles, stack, t, text) + Pieces(styles, rest, 0, Restacked(styles, stack, t));
  }

  /** No tag starts in tagless text, and none reaches over a bracket. */
  lemma {:induction false} TextHasNoTag(text: string, rest: string, i: nat)
    requires Tagless(text) && i <= |text| && (rest == "" || rest[0] == '<')
    ensures NextTag(text + rest, i) == NextTag(text + rest, |text|)
    decreases |text| - i
  {
    hide TagAt;
    if i < |text| {
      TagAtIsPattern(text + rest, i);
      TextHasNoTag(text, rest, i + 1);
      if TagAt(text + rest, i).Some? {
        TagStaysInside(text, rest, TagAt(text + rest, i).value);
      }
    }
  }

  lemma OneBracket(s: string, t: Tag)
    requires Matches(s, t)
    ensures forall k | t.start < k < t.end :: s[k] != '<'
  {
    forall k | NameStart(t) <= k < t.end - 1
      ensures s[k] != '<'
    {
      assert s[k] == t.name[k - NameStart(t)] && t.name[k - NameStart(t)] in t.name;
    }
  }

  lemma TagStaysInside(text: string, rest: string, t: Tag)
    requires Matches(text + rest, t) && t.start < |text| && (rest == "" || rest[0] == '<')
    ensures Matches(text, t)
  {
    var s := text + rest;
    OneBracket(s, t);
    assert rest != "" ==> s[|text|] == '<';
    assert s[NameStart(t)..t.end - 1] == text[NameStart(t)..t.end - 1];
  }

  /** Text at the beginning, before a tag or the end. */
  lemma {:induction false} PiecesOfText(styles: Styles, text: string, rest: string, stack: seq<Style>)
    requires Tagless(text) && (rest == "" || (rest[0] == '<' && TagAt(rest, 0).Some?))
    ensures Pieces(styles, text + rest, 0, stack) == Segment(text, stack) + Pieces(styles, rest, 0, stack)
  {
    hide TagAt, Segment, TagText, Restacked, Tagless, Pieces;
    var s := text + rest;
    TextHasNoTag(text, rest, 0);
    PiecesShift(styles, text, rest, 0, stack);
    NextTagShift(text, rest, 0);
    FoundAtOnce(rest);
    EmptyText(stack);
    PiecesStep(styles, s, 0, stack);
    PiecesStep(styles, s, |text|, stack);
    assert s[0..|text|] == text && s[|text|..|text|] == "";
    if rest == "" {
      assert s == text && s[0..] == text && s[|text|..] == "";
    } else {
      var t := NextTag(s, |text|).value;
      var more := TagText(styles, stack, t, s[t.start..t.end]) + Pieces(styles, s, t.end, Restacked(styles, stack, t));
      assert t.start == |text| && [] + more == more;
    }
  }

  lemma {:induction false} FoundAtOnce(rest: string)
    ensures rest == "" ==> NextTag(rest, 0).None?
    ensures TagAt(rest, 0).Some? ==> NextTag(rest, 0) == TagAt(rest, 0) && TagAt(rest, 0).value.start == 0
  {
  }

  lemma EmptyText(stack: seq<Style>)
    ensures Segment("", stack) == []
  {
  }

  lemma {:induction false} PiecesStep(styles: Styles, input: string, cursor: nat, stack: seq<Style>)
    requires cursor <= |input|
    ensures Pieces(styles, input, cursor, stack) ==
              match NextTag(input, cursor)
              case None => Segment(input[cursor..], stack)
              case Some(t) =>
                Segment(input[cursor..t.start], stack)
                + (TagText(styles, stack, t, input[t.start..t.end])
                   + Pieces(styles, input, t.end, Restacked(styles, stack, t)))
  {
    hide NextTag, Segment, TagText, Restacked;
  }

  /** What follows a tree: nothing, or a tag. */
  ghost predicate Follows(rest: string) {
    rest == "" || (rest[0] == '<' && TagAt(rest, 0).Some?)
  }

  lemma TagFollows(name: string, closing: bool, rest: string)
    requires ValidName(name)
    ensures Follows(Tagged(name, closing) + rest)
  {
    var text := Tagged(name, closing);
    var t := Tag(0, |text|, closing, name);
    assert Matches(text + rest, t);
    PatternIsTag(text + rest, t);
  }

  /** A proper tree that does not begin with text is empty or begins with a tag. */
  lemma {:induction false} TreeFollows(styles: Styles, tree: Tree, nested: bool, closed: bool, rest: string)
    requires Proper(styles, tree, nested, closed) && !tree.Text? && Follows(rest)
    ensures Follows(Spelled(tree) + rest)
  {
    hide Follows, Tagless, ValidName;
    match tree
    case Nothing => assert "" + rest == rest;
    case Styled(name, inside, close, next) =>
      var more := Spelled(inside) + (Closing(close) + Spelled(next));
      TagFollows(name, false, more + rest);
      assert (Opening(name) + more) + rest == Opening(name) + (more + rest);
    case Unclosed(name, inside) =>
      TagFollows(name, false, Spelled(inside) + rest);
      assert (Opening(name) + Spelled(inside)) + rest == Opening(name) + (Spelled(inside) + rest);
    case Unknown(name, next) =>
      TagFollows(name, false, Spelled(next) + rest);
      assert (Opening(name) + Spelled(next)) + rest == Opening(name) + (Spelled(next) + rest);
    case Stray(name, next) =>
      TagFollows(name, true, Spelled(next) + rest);
      assert (Closing(name) + Spelled(next)) + rest == Closing(name) + (Spelled(next) + rest);
  }

  lemma {:induction false} SegmentLooks(text: string, stack: seq<Style>)
    ensures PieceLooks(Segment(text, stack)) == Colored(text, Stacked(stack))
  {
    hide RenderedAll, Codes, Collapsed;
    CodesLook(stack);
    RenderedNone();
    if text != "" {
      assert Segment(text, stack)[1..] == [];
    }
  }

  lemma LiteralLooks(text: string)
    ensures PieceLooks([Piece(text, [])]) == Colored(text, PLAIN) && PieceLooks([]) == []
  {
    hide RenderedAll;
    RenderedNone();
    assert [Piece(text, [])][1..] == [];
  }

  /** An opening tag with a style, and a closing tag that closes something, are not shown. */
  lemma {:induction false} TagOpens(styles: Styles, name: string, rest: string, stack: seq<Style>)
    requires ValidName(name)
    ensures name in styles ==>
              Pieces(styles, Opening(name) + rest, 0, stack) == Pieces(styles, rest, 0, stack + [styles[name]])
    ensures name !in styles ==>
              Pieces(styles, Opening(name) + rest, 0, stack)
                == [Piece(Opening(name), [])] + Pieces(styles, rest, 0, stack)
  {
    hide Pieces, ValidName;
    PiecesOfTag(styles, name, false, rest, stack);
  }

  lemma {:induction false} TagCloses(styles: Styles, name: string, rest: string, stack: seq<Style>)
    requires ValidName(name)
    ensures stack != [] ==>
              Pieces(styles, Closing(name) + rest, 0, stack) == Pieces(styles, rest, 0, stack[..|stack| - 1])
    ensures stack == [] ==>
              Pieces(styles, Closing(name) + rest, 0, stack)
                == [Piece(Closing(name), [])] + Pieces(styles, rest, 0, stack)
  {
    hide Pieces, ValidName;
    PiecesOfTag(styles, name, true, rest, stack);
  }

  /** The pieces of a spelled tree look as the tree means, and then those of what follows. */
  lemma {:induction false} SpelledLooks(styles: Styles, tree: Tree, nested: bool, closed: bool, rest: string,
                                        stack: seq<Style>)
    requires Proper(styles, tree, nested, closed) && Follows(rest) && (closed || rest == "")
    requires nested <==> stack != []
    ensures PieceLooks(Pieces(styles, Spelled(tree) + rest, 0, stack))
         == Meant(styles, tree, Stacked(stack)) + PieceLooks(Pieces(styles, rest, 0, stack))
    decreases tree, 1
  {
    hide Pieces, PieceLooks, ValidName, Tagless, Follows, Colored, Over, Opening, Closing;
    var look := Stacked(stack);
    var after := PieceLooks(Pieces(styles, rest, 0, stack));
    match tree
    case Nothing =>
      assert "" + rest == rest && [] + after == after;
    case Text(text, next) =>
      TreeFollows(styles, next, nested, closed, rest);
      assert (text + Spelled(next)) + rest == text + (Spelled(next) + rest);
      TextLooks(styles, text, Spelled(next) + rest, stack);
      SpelledLooks(styles, next, nested, closed, rest, stack);
      ConcatAssociative(Colored(text, look), Meant(styles, next, look), after);
    case Styled(name, inside, close, next) =>
      StyledLooks(styles, name, inside, close, next, nested, closed, rest, stack);
    case Unclosed(name, inside) =>
      SpelledLooks(styles, inside, true, false, rest, stack + [styles[name]]);
      UnclosedLooks(styles, name, Spelled(inside), Meant(styles, inside, Stacked(stack + [styles[name]])), stack);
      StackedOver(stack, styles[name]);
    case Unknown(name, next) =>
      SpelledLooks(styles, next, nested, closed, rest, stack);
      UnknownLooks(styles, name, Spelled(next), Meant(styles, next, look), rest, stack);
    case Stray(name, next) =>
      SpelledLooks(styles, next, nested, closed, rest, stack);
      StrayLooks(styles, name, Spelled(next), Meant(styles, next, look), rest, stack);
  }

  /** A style that is never closed goes on to the end. */
  lemma {:induction false} UnclosedLooks(styles: Styles, name: string, text: string, looks: seq<(char, Look)>,
                                         stack: seq<Style>)
    requires ValidName(name) && name in styles
    requires var inner := stack + [styles[name]];
             PieceLooks(Pieces(styles, text + "", 0, inner)) == looks + PieceLooks(Pieces(styles, "", 0, inner))
    ensures PieceLooks(Pieces(styles, (Opening(name) + text) + "", 0, stack))
         == looks + PieceLooks(Pieces(styles, "", 0, stack))
  {
    hide Pieces, PieceLooks, ValidName, Opening;
    TagOpens(styles, name, text, stack);
    assert (Opening(name) + text) + "" == Opening(name) + text && text + "" == text;
    NothingLeft(styles, stack + [styles[name]]);
    NothingLeft(styles, stack);
  }

  /** A tag that means nothing is shown as it is, before what follows it. */
  lemma {:induction false} UnknownLooks(styles: Styles, name: string, text: string, looks: seq<(char, Look)>,
                                        rest: string, stack: seq<Style>)
    requires ValidName(name) && name !in styles
    requires PieceLooks(Pieces(styles, text + rest, 0, stack)) == looks + PieceLooks(Pieces(styles, rest, 0, stack))
    ensures PieceLooks(Pieces(styles, (Opening(name) + text) + rest, 0, stack))
         == (Colored(Opening(name), PLAIN) + looks) + PieceLooks(Pieces(styles, rest, 0, stack))
  {
    hide Pieces, PieceLooks, ValidName, Colored, Opening;
    TagOpens(styles, name, text + rest, stack);
    assert (Opening(name) + text) + rest == Opening(name) + (text + rest);
    LiteralFirst(Opening(name), Pieces(styles, text + rest, 0, stack));
    ConcatAssociative(Colored(Opening(name), PLAIN), looks, PieceLooks(Pieces(styles, rest, 0, stack)));
  }

  lemma {:induction false} StrayLooks(styles: Styles, name: string, text: string, looks: seq<(char, Look)>,
                                      rest: string, stack: seq<Style>)
    requires ValidName(name) && stack == []
    requires PieceLooks(Pieces(styles, text + rest, 0, stack)) == looks + PieceLooks(Pieces(styles, rest, 0, stack))
    ensures PieceLooks(Pieces(styles, (Closing(name) + text) + rest, 0, stack))
         == (Colored(Closing(name), PLAIN) + looks) + PieceLooks(Pieces(styles, rest, 0, stack))
  {
    hide Pieces, PieceLooks, ValidName, Colored, Closing;
    TagCloses(styles, name, text + rest, stack);
    assert (Closing(name) + text) + rest == Closing(name) + (text + rest);
    LiteralFirst(Closing(name), Pieces(styles, text + rest, 0, stack));
    ConcatAssociative(Colored(Closing(name), PLAIN), looks, PieceLooks(Pieces(styles, rest, 0, stack)));
  }

  lemma {:induction false} StackedOver(stack: seq<Style>, style: Style)
    ensures Stacked(stack + [style]) == Over(Stacked(stack), style)
  {
    assert (stack + [style])[..|stack|] == stack;
  }

  lemma {:induction false} NothingLeft(styles: Styles, stack: seq<Style>)
    ensures PieceLooks(Pieces(styles, "", 0, stack)) == []
  {
    FoundAtOnce("");
  }

  lemma {:induction false} LiteralFirst(text: string, pieces: seq<Piece>)
    ensures PieceLooks([Piece(text, [])] + pieces) == Colored(text, PLAIN) + PieceLooks(pieces)
  {
    hide PieceLooks;
    PieceLooksJoin([Piece(text, [])], pieces);
    LiteralLooks(text);
  }

  lemma {:induction false} TextLooks(styles: Styles, text: string, rest: string, stack: seq<Style>)
    requires Tagless(text) && Follows(rest)
    ensures PieceLooks(Pieces(styles, text + rest, 0, stack))
         == Colored(text, Stacked(stack)) + PieceLooks(Pieces(styles, rest, 0, stack))
  {
    hide Pieces, PieceLooks, Segment, Tagless;
    PiecesOfText(styles, text, rest, stack);
    PieceLooksJoin(Segment(text, stack), Pieces(styles, rest, 0, stack));
    SegmentLooks(text, stack);
  }

  /** A styled part is shown in its style on top of those around it, and what comes after it without. */
  lemma {:induction false} StyledLooks(styles: Styles, name: string, inside: Tree, close: string, next: Tree,
                                       nested: bool, closed: bool, rest: string, stack: seq<Style>)
    requires Proper(styles, Styled(name, inside, close, next), nested, closed)
    requires Follows(rest) && (closed || rest == "") && (nested <==> stack != [])
    ensures var tree := Styled(name, inside, close, next);
            PieceLooks(Pieces(styles, Spelled(tree) + rest, 0, stack))
              == Meant(styles, tree, Stacked(stack)) + PieceLooks(Pieces(styles, rest, 0, stack))
    decreases Styled(name, inside, close, next), 0
  {
    hide Pieces, PieceLooks, ValidName, Tagless, Follows, Over, Opening, Closing;
    var tree := Styled(name, inside, close, next);
    var inner, later := stack + [styles[name]], Spelled(next) + rest;
    var after := PieceLooks(Pieces(styles, rest, 0, stack));
    SpelledOnce(name, inside, close, next, rest);
    TagOpens(styles, name, Spelled(inside) + (Closing(close) + later), stack);
    ClosingFollows(close, later);
    SpelledLooks(styles, inside, true, true, Closing(close) + later, inner);
    TagCloses(styles, close, later, inner);
    assert inner[..|inner| - 1] == stack;
    SpelledLooks(styles, next, nested, closed, rest, stack);
    StackedOver(stack, styles[name]);
    ConcatAssociative(Meant(styles, inside, Stacked(inner)), Meant(styles, next, Stacked(stack)), after);
  }

  lemma ClosingFollows(name: string, rest: string)
    requires ValidName(name)
    ensures Follows(Closing(name) + rest)
  {
    hide Follows, ValidName;
    TagFollows(name, true, rest);
  }

  lemma {:induction false} SpelledOnce(name: string, inside: Tree, close: string, next: Tree, rest: string)
    ensures Spelled(Styled(name, inside, close, next)) + rest
         == Opening(name) + (Spelled(inside) + (Closing(close) + (Spelled(next) + rest)))
  {
    hide Opening, Closing;
    var a, b, c, d := Opening(name), Spelled(inside), Closing(close), Spelled(next);
    assert (a + (b + (c + d))) + rest == a + (b + (c + (d + rest)));
  }

  // ---------------------------------------------------------------------- main results

  /** What a terminal shows of a formatted tree is what the tree means: each character in the look of the styles around
      it, the inner ones on top, exactly when no stretch of its text contains an escape sequence. */
  lemma {:induction false} FormattedAsMeant(styles: Styles, tree: Tree)
    requires Proper(styles, tree, false, false)
    ensures var pieces := Pieces(styles, Spelled(tree), 0, []);
            && (Screen(Scan(Output(pieces, true)), PLAIN) == Meant(styles, tree, PLAIN) <==> AllSgrFree(Merged(pieces)))
            && |Output(pieces, false)| == |Meant(styles, tree, PLAIN)|
            && forall i | 0 <= i < |Output(pieces, false)| ::
                 Output(pieces, false)[i] == Meant(styles, tree, PLAIN)[i].0
  {
    hide Pieces, PieceLooks, Scan, Screen, AllSgrFree, Merged, Meant, Output, Proper;
    var input := Spelled(tree);
    var pieces := Pieces(styles, input, 0, []);
    assert input + "" == input;
    SpelledLooks(styles, tree, false, false, "", []);
    NothingLeft(styles, []);
    ScreenShowsPieces(styles, input);
    PieceLooksLength(pieces);
    assert Stacked([]) == PLAIN;
    assert Meant(styles, tree, PLAIN) + [] == Meant(styles, tree, PLAIN);
  }

  /** Every input spells a tree. */
  lemma {:induction false} EveryInputIsATree(styles: Styles, input: string) returns (tree: Tree)
    ensures Proper(styles, tree, false, false) && Spelled(tree) == input
  {
    hide Proper;
    var rest, close;
    tree, rest, close := TreeOf(styles, input, false);
    assert Spelled(tree) + "" == Spelled(tree);
  }

  /** The tree at the beginning of the input, up to the closing tag that ends it, if one does. */
  lemma {:induction false} TreeOf(styles: Styles, input: string, nested: bool)
    returns (tree: Tree, rest: string, close: Option<string>)
    ensures Proper(styles, tree, nested, close.Some?)
    ensures input == Spelled(tree) + if close.Some? then Closing(close.value) + rest else ""
    ensures close.Some? ==> nested && ValidName(close.value) && |rest| < |input|
    decreases |input|, 1
  {
    hide NextTag, ValidName, Tagless, Matches;
    rest, close := "", None;
    TagSplits(input);
    var found := NextTag(input, 0);
    if found.None? {
      tree := if input == "" then Nothing else Text(input, Nothing);
      assert input + "" == input;
    } else {
      var t := found.value;
      var text := input[..t.start];
      tree, rest, close := TreeFromTag(styles, input[t.start..], t.closing, t.name, input[t.end..], nested);
      if text != "" {
        tree := Text(text, tree);
        assert input == text + input[t.start..];
      }
    }
  }

  /** Text before the first tag has none, and the tag is spelled from its name. */
  lemma {:induction false} TagSplits(input: string)
    ensures match NextTag(input, 0)
            case None => Tagless(input)
            case Some(t) =>
              && t.start + 2 < t.end <= |input| && Tagless(input[..t.start]) && ValidName(t.name)
              && input[t.start..] == Tagged(t.name, t.closing) + input[t.end..]
  {
    hide NextTag, Matches, Tagged, ValidName;
    NextTagIsLeftmost(input, 0);
    if NextTag(input, 0).Some? {
      var t := NextTag(input, 0).value;
      forall u
        ensures !Matches(input[..t.start], u)
      {
        MatchStays(input, t.start, u);
      }
      MatchIsTagged(input, t);
      assert input[t.start..] == input[t.start..t.end] + input[t.end..];
    }
  }

  lemma MatchIsTagged(s: string, t: Tag)
    requires Matches(s, t)
    ensures t.start + 2 < t.end <= |s| && ValidName(t.name) && s[t.start..t.end] == Tagged(t.name, t.closing)
  {
    hide ValidName;
    var text := s[t.start..t.end];
    assert ValidName(t.name) && |t.name| > 0 by { NameIsThere(s, t); }
    assert text == s[t.start..NameStart(t)] + s[NameStart(t)..t.end - 1] + s[t.end - 1..t.end];
    assert s[t.start..NameStart(t)] == if t.closing then "</" else "<";
  }

  lemma NameIsThere(s: string, t: Tag)
    requires Matches(s, t)
    ensures ValidName(t.name) && |t.name| > 0
  {
  }

  lemma MatchStays(s: string, n: nat, t: Tag)
    requires n <= |s|
    ensures Matches(s[..n], t) ==> Matches(s, t) && t.start < n
  {
    if Matches(s[..n], t) {
      assert s[..n][NameStart(t)..t.end - 1] == s[NameStart(t)..t.end - 1];
    }
  }

  lemma {:induction false} TreeFromTag(styles: Styles, input: string, closing: bool, name: string, after: string,
                                       nested: bool)
    returns (tree: Tree, rest: string, close: Option<string>)
    requires ValidName(name) && input == Tagged(name, closing) + after
    ensures Proper(styles, tree, nested, close.Some?) && !tree.Text?
    ensures input == Spelled(tree) + if close.Some? then Closing(close.value) + rest else ""
    ensures close.Some? ==> nested && ValidName(close.value) && |rest| < |input|
    decreases |input|, 0
  {
    hide ValidName, Tagless;
    if closing && nested {
      tree, rest, close := Nothing, after, Some(name);
      assert "" + (Closing(name) + after) == input;
    } else if closing {
      var next;
      next, rest, close := TreeOf(styles, after, nested);
      tree := Stray(name, next);
      assert Spelled(tree) + "" == Closing(name) + (Spelled(next) + "");
    } else if name !in styles {
      var next;
      next, rest, close := TreeOf(styles, after, nested);
      tree := Unknown(name, next);
      var end := if close.Some? then Closing(close.value) + rest else "";
      assert Spelled(tree) + end == Opening(name) + (Spelled(next) + end);
    } else {
      var inside, more, ended := TreeOf(styles, after, true);
      if ended.None? {
        tree, rest, close := Unclosed(name, inside), "", None;
        assert Spelled(tree) + "" == Opening(name) + (Spelled(inside) + "");
      } else {
        var next;
        next, rest, close := TreeOf(styles, more, nested);
        tree := Styled(name, inside, ended.value, next);
        var end := if close.Some? then Closing(close.value) + rest else "";
        SpelledOnce(name, inside, ended.value, next, end);
      }
    }
  }
}
