/** Console markup: tags select styles, which a terminal understands as SGR sequences. */
module Formatter {
  import opened Basics

  datatype Color = Black | Red | Green | Yellow | Blue | Magenta | Cyan | White | Default

  datatype Effect = Bold | Dim | Italic | Underline

  datatype Style = Style(fg: Option<Color>, bg: Option<Color>, effects: seq<Effect>)

  type Styles = map<string, Style>

  const ESC: char := '\U{001B}'

  function Digit(c: Color): char {
    match c
    case Black => '0'
    case Red => '1'
    case Green => '2'
    case Yellow => '3'
    case Blue => '4'
    case Magenta => '5'
    case Cyan => '6'
    case White => '7'
    case Default => '9'
  }

  function EffectCode(e: Effect): string {
    match e
    case Bold => "1"
    case Dim => "2"
    case Italic => "3"
    case Underline => "4"
  }

  function EffectCodes(es: seq<Effect>): seq<string> {
    if es == [] then [] else EffectCodes(es[..|es| - 1]) + [EffectCode(es[|es| - 1])]
  }

  /** The SGR codes of a style: foreground, background, effects. */
  function Codes(s: Style): seq<string> {
    (if s.fg.Some? then [['3', Digit(s.fg.value)]] else [])
    + (if s.bg.Some? then [['4', Digit(s.bg.value)]] else [])
    + EffectCodes(s.effects)
  }

  function Join(codes: seq<string>): string {
    if codes == [] then "" else if |codes| == 1 then codes[0] else Join(codes[..|codes| - 1]) + ";" + codes[|codes| - 1]
  }

  // ------------------------------------------------------------------------ tags

  predicate Letter(c: char) {
    'a' <= c <= 'z' || 'A' <= c <= 'Z'
  }

  predicate NameChar(c: char) {
    Letter(c) || '0' <= c <= '9' || c == '_' || c == '-'
  }

  /** The length of the run of name characters from `i` on. */
  function NameEnd(s: string, i: nat): (r: nat)
    requires i <= |s|
    ensures i <= r <= |s|
    decreases |s| - i
  {
    if i < |s| && NameChar(s[i]) then NameEnd(s, i + 1) else i
  }

  datatype Tag = Tag(start: nat, end: nat, closing: bool, name: string)

  /** The tag that starts at `i`, if one does. */
  function TagAt(s: string, i: nat): (r: Option<Tag>)
    requires i <= |s|
    ensures r.Some? ==> r.value.start == i && i + 2 < r.value.end <= |s|
  {
    if i == |s| || s[i] != '<' then None
    else
      var closing := i + 1 < |s| && s[i + 1] == '/';
      var from := if closing then i + 2 else i + 1;
      if from < |s| && Letter(s[from]) && NameEnd(s, from) < |s| && s[NameEnd(s, from)] == '>'
        && from < NameEnd(s, from)
      then Some(Tag(i, NameEnd(s, from) + 1, closing, s[from..NameEnd(s, from)]))
      else None
  }

  /** The first tag from `i` on. */
  function NextTag(s: string, i: nat): (r: Option<Tag>)
    requires i <= |s|
    ensures r.Some? ==> i <= r.value.start && r.value.start + 2 < r.value.end <= |s|
    decreases |s| - i
  {
    if TagAt(s, i).Some? then TagAt(s, i) else if i == |s| then None else NextTag(s, i + 1)
  }

  predicate ValidName(name: string) {
    |name| > 0 && Letter(name[0]) && forall c | c in name :: NameChar(c)
  }

  /** Where the name of a tag begins. */
  function NameStart(t: Tag): nat {
    if t.closing then t.start + 2 else t.start + 1
  }

  /** The tag is an occurrence of the tag pattern: a bracket, a slash if it closes, a name, a bracket. */
  predicate Matches(s: string, t: Tag) {
    && NameStart(t) + |t.name| + 1 == t.end <= |s|
    && s[t.start] == '<' && (t.closing ==> s[t.start + 1] == '/')
    && ValidName(t.name) && s[NameStart(t)..t.end - 1] == t.name && s[t.end - 1] == '>'
  }

  lemma {:induction false} NameEndIs(s: string, i: nat, j: nat)
    requires i <= j <= |s|
    ensures NameEnd(s, i) == j <==> (forall k | i <= k < j :: NameChar(s[k])) && (j < |s| ==> !NameChar(s[j]))
    decreases j - i
  {
    if i < j && NameChar(s[i]) {
      NameEndIs(s, i + 1, j);
    }
  }

  /** At each position there is exactly the occurrence of the pattern that starts there, if there is one. */
  lemma TagAtIsPattern(s: string, i: nat)
    requires i <= |s|
    ensures TagAt(s, i).Some? ==> Matches(s, TagAt(s, i).value)
    ensures forall t | Matches(s, t) && t.start == i :: TagAt(s, i) == Some(t)
  {
    if TagAt(s, i).Some? {
      var t := TagAt(s, i).value;
      NameEndIs(s, NameStart(t), t.end - 1);
    }
    forall t | Matches(s, t) && t.start == i
      ensures TagAt(s, i) == Some(t)
    {
      PatternIsTag(s, t);
    }
  }

  lemma PatternIsTag(s: string, t: Tag)
    requires Matches(s, t)
    ensures TagAt(s, t.start) == Some(t)
  {
    var from := NameStart(t);
    forall k | from <= k < t.end - 1
      ensures NameChar(s[k])
    {
      assert s[k] == t.name[k - from] && t.name[k - from] in t.name;
    }
    NameEndIs(s, from, t.end - 1);
    assert s[from] == t.name[0];
  }

  /** The scanner finds the leftmost occurrence of the pattern from a position on. */
  lemma {:induction false} NextTagIsLeftmost(s: string, i: nat)
    requires i <= |s|
    ensures NextTag(s, i).Some? ==> Matches(s, NextTag(s, i).value)
    ensures forall t | Matches(s, t) && i <= t.start ::
              NextTag(s, i).Some? && (t == NextTag(s, i).value || NextTag(s, i).value.start < t.start)
    decreases |s| - i
  {
    hide TagAt, Matches;
    TagAtIsPattern(s, i);
    if TagAt(s, i).None? && i < |s| {
      NextTagIsLeftmost(s, i + 1);
    }
    InsideText(s);
  }

  lemma InsideText(s: string)
    ensures forall t | Matches(s, t) :: t.start < |s|
  {
  }

  // --------------------------------------------------------------------- rendering

  /** The innermost style that sets a colour decides; effects add up. */
  function Foreground(stack: seq<Style>): Option<Color> {
    if stack == [] then None else if stack[|stack| - 1].fg.Some? then stack[|stack| - 1].fg
        else Foreground(stack[..|stack| - 1])
  }

  function Background(stack: seq<Style>): Option<Color> {
    if stack == [] then None else if stack[|stack| - 1].bg.Some? then stack[|stack| - 1].bg
        else Background(stack[..|stack| - 1])
  }

  function AllEffects(stack: seq<Style>): seq<Effect> {
    if stack == [] then [] else AllEffects(stack[..|stack| - 1]) + stack[|stack| - 1].effects
  }

  function Collapsed(stack: seq<Style>): Style {
    Style(Foreground(stack), Background(stack), Unique(AllEffects(stack)))
  }

  /** Text and the codes it is shown with. */
  datatype Piece = Piece(text: string, codes: seq<string>)

  function Segment(text: string, stack: seq<Style>): seq<Piece> {
    if text == "" then [] else [Piece(text, if stack == [] then [] else Codes(Collapsed(stack)))]
  }

  /** A tag is text when it closes nothing or names no style. */
  predicate Literal(styles: Styles, stack: seq<Style>, t: Tag) {
    if t.closing then stack == [] else t.name !in styles
  }

  /** Any closing tag ends the innermost style, whatever its name. */
  function Restacked(styles: Styles, stack: seq<Style>, t: Tag): seq<Style> {
    if Literal(styles, stack, t) then stack else if t.closing then stack[..|stack| - 1] else stack + [styles[t.name]]
  }

  function TagText(styles: Styles, stack: seq<Style>, t: Tag, full: string): seq<Piece> {
    if Literal(styles, stack, t) then [Piece(full, [])] else []
  }

  /** The pieces of the input from `cursor` on. */
  function Pieces(styles: Styles, input: string, cursor: nat, stack: seq<Style>): seq<Piece>
    requires cursor <= |input|
    decreases |input| - cursor
  {
    match NextTag(input, cursor)
    case None => Segment(input[cursor..], stack)
    case Some(t) =>
      Segment(input[cursor..t.start], stack)
      + (TagText(styles, stack, t, input[t.start..t.end]) + Pieces(styles, input, t.end, Restacked(styles, stack, t)))
  }

  function Wrapped(text: string, codes: seq<string>): string {
    if codes == [] then text else [ESC, '['] + Join(codes) + "m" + text + [ESC, '[', '0', 'm']
  }

  function Output(pieces: seq<Piece>, decorated: bool): string {
    if pieces == [] then ""
    else
      (if decorated then Wrapped(pieces[0].text, pieces[0].codes) else pieces[0].text)
      + Output(pieces[1..], decorated)
  }

  lemma {:induction false} OutputJoin(a: seq<Piece>, b: seq<Piece>, decorated: bool)
    ensures Output(a + b, decorated) == Output(a, decorated) + Output(b, decorated)
  {
    if a == [] {
      assert a + b == b;
    } else {
      assert (a + b)[1..] == a[1..] + b;
      OutputJoin(a[1..], b, decorated);
    }
  }

  lemma NoEffects()
    ensures Unique(AllEffects([])) == []
  {
  }

  class OutputFormatter {
    var decorated: bool
    var styles: Styles

    constructor (decorated: bool, styles: Styles)
      ensures this.decorated == decorated && this.styles == styles
    {
      this.decorated, this.styles := decorated, styles;
    }

    method SetStyle(name: string, style: Style)
      modifies `styles
      ensures styles == old(styles)[name := style]
    {
      styles := styles[name := style];
    }

    method Collapse(stack: seq<Style>) returns (r: Style)
      ensures r == Collapsed(stack)
    {
      hide Unique;
      var fg: Option<Color>, bg: Option<Color> := None, None;
      var effects: seq<Effect> := [];
      NoEffects();
      for i := 0 to |stack|
        invariant fg == Foreground(stack[..i]) && bg == Background(stack[..i])
                  && effects == Unique(AllEffects(stack[..i]))
      {
        var style := stack[i];
        assert stack[..i + 1][..i] == stack[..i];
        if style.fg.Some? {
          fg := style.fg;
        }
        if style.bg.Some? {
          bg := style.bg;
        }
        effects := AddNew(effects, style.effects, AllEffects(stack[..i]));
      }
      assert stack[..|stack|] == stack;
      r := Style(fg, bg, effects);
    }

    /** The effects of one style, each added unless it is there already. */
    method AddNew(effects: seq<Effect>, more: seq<Effect>, ghost before: seq<Effect>) returns (r: seq<Effect>)
      requires effects == Unique(before)
      ensures r == Unique(before + more)
    {
      hide Unique;
      r := effects;
      assert before + more[..0] == before;
      for j := 0 to |more|
        invariant r == Unique(before + more[..j])
      {
        UniqueOne(before + more[..j], more[j]);
        assert before + more[..j + 1] == before + more[..j] + [more[j]];
        if more[j] !in r {
          r := r + [more[j]];
        }
      }
      assert more[..|more|] == more;
    }

    method Wrap(text: string, style: Style) returns (r: string)
      ensures r == Wrapped(text, Codes(style))
    {
      hide Join, Digit, EffectCode, Wrapped;
      var codes: seq<string> := [];
      if style.fg.Some? {
        codes := codes + [['3', Digit(style.fg.value)]];
      }
      if style.bg.Some? {
        codes := codes + [['4', Digit(style.bg.value)]];
      }
      assert codes + EffectCodes(style.effects) == Codes(style);
      codes := AddEffects(codes, style.effects);
      r := WithCodes(text, codes);
    }

    method AddEffects(colours: seq<string>, effects: seq<Effect>) returns (codes: seq<string>)
      ensures codes == colours + EffectCodes(effects)
    {
      hide EffectCode;
      codes := colours;
      for i := 0 to |effects|
        invariant codes == colours + EffectCodes(effects[..i])
      {
        assert effects[..i + 1][..i] == effects[..i];
        codes := codes + [EffectCode(effects[i])];
      }
      assert effects[..|effects|] == effects;
    }

    method WithCodes(text: string, codes: seq<string>) returns (r: string)
      ensures r == Wrapped(text, codes)
    {
      if codes == [] {
        return text;
      }
      return [ESC, '['] + Join(codes) + "m" + text + [ESC, '[', '0', 'm'];
    }

    method RenderSegment(text: string, stack: seq<Style>) returns (r: string)
      requires text != ""
      ensures r == Output(Segment(text, stack), decorated)
    {
      assert Segment(text, stack)[1..] == [];
      if !decorated || stack == [] {
        return text;
      }
      var style := Collapse(stack);
      r := Wrap(text, style);
    }

    method Format(input: string) returns (output: string)
      ensures output == Output(Pieces(styles, input, 0, []), decorated)
    {
      hide Pieces, Output, Segment, NextTag, Literal;
      var cursor := 0;
      output := "";
      var stack: seq<Style> := [];
      ghost var all := Output(Pieces(styles, input, 0, []), decorated);
      while true
        invariant cursor <= |input| && output + Output(Pieces(styles, input, cursor, stack), decorated) == all
        decreases |input| - cursor
      {
        NextPiece(styles, input, cursor, stack, decorated, output);
        var found := NextTag(input, cursor);
        if found.None? {
          break;
        }
        var tag := found.value;
        TagCases(styles, stack, tag);
        var full := input[tag.start..tag.end];
        if cursor < tag.start {
          var rendered := RenderSegment(input[cursor..tag.start], stack);
          output := output + rendered;
        }
        if tag.closing {
          if stack != [] {
            stack := stack[..|stack| - 1];
          } else {
            output := output + full;
          }
        } else if tag.name in styles {
          stack := stack + [styles[tag.name]];
        } else {
          output := output + full;
        }
        cursor := tag.end;
      }
      if cursor < |input| {
        var rendered := RenderSegment(input[cursor..], stack);
        output := output + rendered;
      }
    }
  }

  lemma TagCases(styles: Styles, stack: seq<Style>, t: Tag)
    ensures Literal(styles, stack, t) <==> if t.closing then stack == [] else t.name !in styles
  {
  }

  /** The output for the rest of the input is that of the next segment and tag, and of what follows them. */
  lemma {:induction false} NextPiece(styles: Styles, input: string, cursor: nat, stack: seq<Style>, decorated: bool,
                                     output: string)
    requires cursor <= |input|
    ensures match NextTag(input, cursor)
            case None =>
              output + Output(Pieces(styles, input, cursor, stack), decorated)
                == if cursor < |input| then output + Output(Segment(input[cursor..], stack), decorated) else output
            case Some(t) =>
              && cursor <= t.start < t.end <= |input|
              && var shown :=
                   if cursor < t.start then output + Output(Segment(input[cursor..t.start], stack), decorated)
                   else output;
                 output + Output(Pieces(styles, input, cursor, stack), decorated)
                   == (if Literal(styles, stack, t) then shown + input[t.start..t.end] else shown)
                      + Output(Pieces(styles, input, t.end, Restacked(styles, stack, t)), decorated)
  {
    hide Literal, Restacked, Output, Segment, NextTag;
    var tag := NextTag(input, cursor);
    EmptySegment(stack, decorated);
    if tag.Some? {
      var t := tag.value;
      var segment := Segment(input[cursor..t.start], stack);
      var literal := TagText(styles, stack, t, input[t.start..t.end]);
      var rest := Pieces(styles, input, t.end, Restacked(styles, stack, t));
      OutputJoin(segment, literal + rest, decorated);
      OutputJoin(literal, rest, decorated);
      OneLiteral(input[t.start..t.end], decorated);
      Regroup(output, Output(segment, decorated), Output(literal, decorated), Output(rest, decorated));
      assert input[t.start..t.start] == "";
    } else {
      assert output + "" == output && input[|input|..] == "";
    }
  }

  lemma {:induction false} EmptySegment(stack: seq<Style>, decorated: bool)
    ensures Output(Segment("", stack), decorated) == ""
  {
  }

  lemma Regroup(o: string, a: string, b: string, c: string)
    ensures o + (a + (b + c)) == ((o + a) + b) + c && o + "" == o && (o + a) + "" == o + a
  {
  }

  lemma {:induction false} OneLiteral(text: string, decorated: bool)
    ensures Output([Piece(text, [])], decorated) == text && Output([], decorated) == ""
  {
    assert [Piece(text, [])][1..] == [];
  }
}
