/** What a terminal shows of formatted output. The escape sequences are those of SELECT GRAPHIC RENDITION,
    section 8.3.117 of ECMA-48. */
module Terminal {
  import opened Basics
  import opened Formatter

  datatype Token = Shown(c: char) | Sgr(params: string)

  predicate ParamChar(c: char) {
    '0' <= c <= '9' || c == ';'
  }

  function ParamEnd(s: string, i: nat): (r: nat)
    requires i <= |s|
    ensures i <= r <= |s|
    decreases |s| - i
  {
    if i < |s| && ParamChar(s[i]) then ParamEnd(s, i + 1) else i
  }

  predicate StartsSgr(s: string) {
    |s| >= 2 && s[0] == ESC && s[1] == '[' && ParamEnd(s, 2) < |s| && s[ParamEnd(s, 2)] == 'm'
  }

  /** The characters and SGR sequences of a text. */
  function Scan(s: string): seq<Token>
    decreases |s|
  {
    if s == "" then []
    else if StartsSgr(s) then [Sgr(s[2..ParamEnd(s, 2)])] + Scan(s[ParamEnd(s, 2) + 1..])
    else [Shown(s[0])] + Scan(s[1..])
  }

  /** The text without its SGR sequences. */
  function Visible(ts: seq<Token>): string {
    if ts == [] then "" else (if ts[0].Shown? then [ts[0].c] else "") + Visible(ts[1..])
  }

  function Strip(s: string): string {
    Visible(Scan(s))
  }

  predicate Reset(params: string) {
    params == "" || params == "0"
  }

  /** Every sequence that starts a rendition is followed by a reset before the next starts, and by one at the end. */
  predicate Balanced(ts: seq<Token>, open: bool) {
    if ts == [] then !open
    else if ts[0].Shown? then Balanced(ts[1..], open)
    else if Reset(ts[0].params) then open && Balanced(ts[1..], false)
    else !open && Balanced(ts[1..], true)
  }

  /** Each visible character with the rendition it is shown in. */
  function Cells(ts: seq<Token>, current: string): seq<(char, string)> {
    if ts == [] then []
    else if ts[0].Shown? then [(ts[0].c, current)] + Cells(ts[1..], current)
    else Cells(ts[1..], if Reset(ts[0].params) then "" else ts[0].params)
  }

  // ------------------------------------------------------------- scanning output

  function Chars(text: string): (ts: seq<Token>)
    ensures |ts| == |text| && forall i | 0 <= i < |text| :: ts[i] == Shown(text[i])
  {
    seq(|text|, i requires 0 <= i < |text| => Shown(text[i]))
  }

  function Painted(text: string, rendition: string): (cs: seq<(char, string)>)
    ensures |cs| == |text| && forall i | 0 <= i < |text| :: cs[i] == (text[i], rendition)
  {
    seq(|text|, i requires 0 <= i < |text| => (text[i], rendition))
  }

  /** Escape-free text is scanned as its characters, whatever follows. */
  lemma {:induction false} ScanText(text: string, rest: string)
    requires ESC !in text
    ensures Scan(text + rest) == Chars(text) + Scan(rest)
  {
    if text == "" {
      assert text + rest == rest;
    } else {
      assert (text + rest)[1..] == text[1..] + rest;
      ScanText(text[1..], rest);
      assert Chars(text) == [Shown(text[0])] + Chars(text[1..]);
    }
  }

  lemma {:induction false} ParamEndAt(prefix: string, params: string, rest: string)
    requires forall c | c in params :: ParamChar(c)
    ensures ParamEnd(prefix + params + "m" + rest, |prefix|) == |prefix| + |params|
    decreases |params|
  {
    var s := prefix + params + "m" + rest;
    if params != "" {
      assert s == (prefix + params[..1]) + params[1..] + "m" + rest;
      assert s[|prefix|] == params[0] && params[0] in params;
      ParamEndAt(prefix + params[..1], params[1..], rest);
    }
  }

  lemma {:induction false} ScanSgr(params: string, rest: string)
    requires forall c | c in params :: ParamChar(c)
    ensures Scan([ESC, '['] + params + "m" + rest) == [Sgr(params)] + Scan(rest)
  {
    var s := [ESC, '['] + params + "m" + rest;
    ParamEndAt([ESC, '['], params, rest);
    assert s[2..2 + |params|] == params && s[2 + |params| + 1..] == rest;
  }

  /** Codes are numbers without leading zeros. */
  predicate GoodCodes(codes: seq<string>) {
    forall c | c in codes :: |c| > 0 && c[0] != '0' && forall x | x in c :: '0' <= x <= '9'
  }

  lemma {:induction false} JoinIsGood(codes: seq<string>)
    requires GoodCodes(codes) && codes != []
    ensures (forall x | x in Join(codes) :: ParamChar(x)) && |Join(codes)| > 0 && Join(codes)[0] != '0'
  {
    assert codes[|codes| - 1] in codes;
    if |codes| > 1 {
      JoinIsGood(codes[..|codes| - 1]);
    }
  }

  // --------------------------------------------------------------- scanning pieces

  /** A scan that reaches an escape character begins anew there. */
  lemma {:induction false} ScanSplit(text: string, rest: string)
    requires rest == "" || rest[0] == ESC
    ensures Scan(text + rest) == Scan(text) + Scan(rest)
    decreases |text|
  {
    hide StartsSgr, Scan, ParamEnd;
    var s := text + rest;
    if text == "" {
      assert s == rest;
      ScanNothing();
    } else {
      StartsSplit(text, rest);
      ScanOne(text);
      ScanOne(s);
      if StartsSgr(text) {
        var e := ParamEnd(text, 2);
        assert s[2..e] == text[2..e] && s[e + 1..] == text[e + 1..] + rest;
        ScanSplit(text[e + 1..], rest);
        ConcatAssociative([Sgr(text[2..e])], Scan(text[e + 1..]), Scan(rest));
      } else {
        assert s[1..] == text[1..] + rest;
        ScanSplit(text[1..], rest);
        ConcatAssociative([Shown(text[0])], Scan(text[1..]), Scan(rest));
      }
    }
  }

  /** One step of a scan. */
  lemma {:induction false} ScanOne(s: string)
    requires s != ""
    ensures StartsSgr(s) ==> Scan(s) == [Sgr(s[2..ParamEnd(s, 2)])] + Scan(s[ParamEnd(s, 2) + 1..])
    ensures !StartsSgr(s) ==> Scan(s) == [Shown(s[0])] + Scan(s[1..])
  {
  }

  lemma {:induction false} StartsSplit(text: string, rest: string)
    requires text != "" && (rest == "" || rest[0] == ESC)
    ensures StartsSgr(text + rest) <==> StartsSgr(text)
    ensures StartsSgr(text) ==> |text| >= 2 && ParamEnd(text + rest, 2) == ParamEnd(text, 2) < |text|
  {
    if |text| >= 2 {
      ParamEndSplit(text, rest, 2);
    }
  }

  lemma {:induction false} ParamEndSplit(text: string, rest: string, i: nat)
    requires i <= |text| && (rest == "" || rest[0] == ESC)
    ensures ParamEnd(text + rest, i) == ParamEnd(text, i)
    decreases |text| - i
  {
    if i < |text| && ParamChar(text[i]) {
      ParamEndSplit(text, rest, i + 1);
    }
  }

  predicate Coded(pieces: seq<Piece>) {
    forall p | p in pieces :: GoodCodes(p.codes)
  }

  /** Neighbours without codes as one piece. */
  function Merged(pieces: seq<Piece>): seq<Piece> {
    if pieces == [] then [] else
      var rest := Merged(pieces[1..]);
      if rest != [] && pieces[0].codes == [] && rest[0].codes == [] then [Piece(pieces[0].text + rest[0].text, [])]
          + rest[1..]
      else [pieces[0]] + rest
  }

  /** Of two neighbours one has codes. */
  predicate Apart(pieces: seq<Piece>) {
    forall i | 0 <= i < |pieces| - 1 :: pieces[i].codes != [] || pieces[i + 1].codes != []
  }

  lemma {:induction false} MergedIsSame(pieces: seq<Piece>)
    ensures Apart(Merged(pieces)) && (Coded(pieces) ==> Coded(Merged(pieces)))
    ensures forall decorated :: Output(Merged(pieces), decorated) == Output(pieces, decorated)
    ensures PieceCells(Merged(pieces)) == PieceCells(pieces)
    ensures (forall p | p in pieces :: ESC !in p.text) ==> forall p | p in Merged(pieces) :: ESC !in p.text
  {
    hide GoodCodes;
    if pieces != [] {
      var p, rest := pieces[0], Merged(pieces[1..]);
      MergedIsSame(pieces[1..]);
      assert ([p] + rest)[1..] == rest;
      if rest != [] && p.codes == [] && rest[0].codes == [] {
        var both := Piece(p.text + rest[0].text, []);
        assert ([both] + rest[1..])[1..] == rest[1..];
        assert Painted(both.text, Join([])) == Painted(p.text, Join([])) + Painted(rest[0].text, Join([]));
        ConcatAssociative(Painted(p.text, Join([])), Painted(rest[0].text, Join([])), PieceCells(rest[1..]));
        forall decorated
          ensures Output([both] + rest[1..], decorated) == Output(pieces, decorated)
        {
          ConcatAssociative(p.text, rest[0].text, Output(rest[1..], decorated));
        }
      }
    }
  }

  function PieceTokens(p: Piece): seq<Token> {
    if p.codes == [] then Scan(p.text) else [Sgr(Join(p.codes))] + Scan(p.text) + [Sgr("0")]
  }

  function AllTokens(pieces: seq<Piece>): seq<Token> {
    if pieces == [] then [] else PieceTokens(pieces[0]) + AllTokens(pieces[1..])
  }

  /** Each character of the pieces with the codes of its piece. */
  function PieceCells(pieces: seq<Piece>): seq<(char, string)> {
    if pieces == [] then [] else Painted(pieces[0].text, Join(pieces[0].codes)) + PieceCells(pieces[1..])
  }

  lemma {:induction false} ScanPiece(p: Piece, rest: string)
    requires GoodCodes(p.codes) && (p.codes == [] && rest != "" ==> rest[0] == ESC)
    ensures Scan(Wrapped(p.text, p.codes) + rest) == PieceTokens(p) + Scan(rest)
  {
    hide Scan, Join, GoodCodes;
    if p.codes == [] {
      ScanSplit(p.text, rest);
    } else {
      JoinIsGood(p.codes);
      var end := [ESC, '[', '0', 'm'] + rest;
      assert end == [ESC, '['] + "0" + "m" + rest;
      assert Wrapped(p.text, p.codes) + rest == [ESC, '['] + Join(p.codes) + "m" + (p.text + end);
      ScanSgr(Join(p.codes), p.text + end);
      ScanSplit(p.text, end);
      ScanSgr("0", rest);
    }
  }

  lemma {:induction false} ScanOutput(pieces: seq<Piece>)
    requires Coded(pieces) && Apart(pieces)
    ensures Scan(Output(pieces, true)) == AllTokens(pieces)
  {
    hide PieceTokens, GoodCodes, Scan;
    if pieces == [] {
      assert Scan("") == [] by { ScanNothing(); }
    } else {
      assert pieces[0] in pieces;
      ScanOutput(pieces[1..]);
      if |pieces| > 1 && pieces[0].codes == [] {
        assert pieces[1].codes != [];
      }
      ScanPiece(pieces[0], Output(pieces[1..], true));
    }
  }

  lemma ScanNothing()
    ensures Scan("") == []
  {
  }

  // -------------------------------------------------------- reading what was scanned

  lemma {:induction false} ReadChars(text: string, rest: seq<Token>, current: string)
    ensures Visible(Chars(text) + rest) == text + Visible(rest)
    ensures Cells(Chars(text) + rest, current) == Painted(text, current) + Cells(rest, current)
    decreases |text|
  {
    hide Visible, Cells, Scan;
    if text == "" {
      assert Chars(text) + rest == rest;
    } else {
      ReadChars(text[1..], rest, current);
      assert (Chars(text) + rest)[1..] == Chars(text[1..]) + rest;
      ReadShown(text[0], Chars(text[1..]) + rest, current);
      assert Chars(text) + rest == [Shown(text[0])] + (Chars(text[1..]) + rest);
      assert Painted(text, current) == [(text[0], current)] + Painted(text[1..], current);
      ConcatAssociative([text[0]], text[1..], Visible(rest));
      ConcatAssociative([(text[0], current)], Painted(text[1..], current), Cells(rest, current));
      assert text == [text[0]] + text[1..];
    }
  }

  lemma {:induction false} ReadShown(c: char, rest: seq<Token>, current: string)
    ensures Visible([Shown(c)] + rest) == [c] + Visible(rest)
    ensures Cells([Shown(c)] + rest, current) == [(c, current)] + Cells(rest, current)
  {
    assert ([Shown(c)] + rest)[1..] == rest;
  }

  /** Nothing in the text is an SGR sequence. */
  predicate SgrFree(text: string) {
    forall t | t in Scan(text) :: t.Shown?
  }

  predicate AllSgrFree(pieces: seq<Piece>) {
    forall p | p in pieces :: SgrFree(p.text)
  }

  /** A scanned text shows itself when it has no SGR sequence, and less than itself when it has one. */
  lemma {:induction false} ScanShows(s: string)
    ensures |Visible(Scan(s))| <= |s| && (|Visible(Scan(s))| == |s| ==> SgrFree(s))
    ensures SgrFree(s) ==> Scan(s) == Chars(s)
    decreases |s|
  {
    if s != "" {
      var ts := Scan(s);
      if StartsSgr(s) {
        ScanShows(s[ParamEnd(s, 2) + 1..]);
        assert ts[0].Sgr? && ts[0] in ts;
      } else {
        ScanShows(s[1..]);
        assert ts == [Shown(s[0])] + Scan(s[1..]) && ts[1..] == Scan(s[1..]);
      }
    }
  }

  lemma {:induction false} VisibleJoin(a: seq<Token>, b: seq<Token>)
    ensures Visible(a + b) == Visible(a) + Visible(b)
  {
    hide Visible;
    if a == [] {
      assert a + b == b;
      NothingVisible();
    } else {
      assert (a + b)[1..] == a[1..] + b;
      VisibleJoin(a[1..], b);
      VisibleOne(a);
      VisibleOne(a + b);
      ConcatAssociative(if a[0].Shown? then [a[0].c] else "", Visible(a[1..]), Visible(b));
    }
  }

  lemma {:induction false} VisibleOne(ts: seq<Token>)
    requires ts != []
    ensures Visible(ts) == (if ts[0].Shown? then [ts[0].c] else "") + Visible(ts[1..])
  {
  }

  /** What the tokens of one piece show is no longer than its text, and is as long only when that has no
      SGR sequence. */
  lemma {:induction false} PieceShows(p: Piece)
    ensures |Visible(PieceTokens(p))| <= |p.text| && (|Visible(PieceTokens(p))| == |p.text| ==> SgrFree(p.text))
  {
    hide Scan, SgrFree;
    ScanShows(p.text);
    if p.codes != [] {
      var start, end := [Sgr(Join(p.codes))], [Sgr("0")];
      VisibleJoin(start + Scan(p.text), end);
      VisibleJoin(start, Scan(p.text));
      assert start[1..] == [] && end[1..] == [];
    }
  }

  /** So are the tokens of all pieces. */
  lemma {:induction false} AllShow(pieces: seq<Piece>)
    ensures |Visible(AllTokens(pieces))| <= |Output(pieces, false)|
    ensures |Visible(AllTokens(pieces))| == |Output(pieces, false)| ==> AllSgrFree(pieces)
    ensures |PieceCells(pieces)| == |Output(pieces, false)|
  {
    hide SgrFree, PieceTokens, Visible;
    if pieces == [] {
      assert |Visible([])| == 0 by { NothingVisible(); }
    } else {
      AllShow(pieces[1..]);
      PieceShows(pieces[0]);
      VisibleJoin(PieceTokens(pieces[0]), AllTokens(pieces[1..]));
    }
  }

  lemma NothingVisible()
    ensures Visible([]) == ""
  {
  }

  lemma {:induction false} CellPerCharacter(ts: seq<Token>, current: string)
    ensures |Cells(ts, current)| == |Visible(ts)|
  {
    if ts != [] {
      CellPerCharacter(ts[1..], if ts[0].Shown? then current else if Reset(ts[0].params) then "" else ts[0].params);
    }
  }

  lemma {:induction false} ReadPiece(p: Piece, rest: seq<Token>)
    requires GoodCodes(p.codes) && SgrFree(p.text)
    ensures Visible(PieceTokens(p) + rest) == p.text + Visible(rest)
    ensures Cells(PieceTokens(p) + rest, "") == Painted(p.text, Join(p.codes)) + Cells(rest, "")
  {
    hide Join, GoodCodes, Scan, SgrFree;
    ScanShows(p.text);
    if p.codes == [] {
      ReadChars(p.text, rest, "");
      assert Join(p.codes) == "" by { NoCodes(); }
    } else {
      JoinIsGood(p.codes);
      var after := [Sgr("0")] + rest;
      assert after[1..] == rest;
      var ts := PieceTokens(p) + rest;
      assert ts[1..] == Chars(p.text) + after;
      ReadChars(p.text, after, Join(p.codes));
    }
  }

  lemma NoCodes()
    ensures Join([]) == ""
  {
  }

  lemma {:induction false} ReadAll(pieces: seq<Piece>)
    requires Coded(pieces) && AllSgrFree(pieces)
    ensures Visible(AllTokens(pieces)) == Output(pieces, false)
    ensures Cells(AllTokens(pieces), "") == PieceCells(pieces)
  {
    hide PieceTokens, GoodCodes, Join, SgrFree;
    if pieces != [] {
      assert pieces[0] in pieces;
      ReadAll(pieces[1..]);
      ReadPiece(pieces[0], AllTokens(pieces[1..]));
    }
  }

  // ------------------------------------------------------------------------- balance

  /** Whether a rendition is open after the tokens; `None` when one starts within another or a reset ends none. */
  function Carried(ts: seq<Token>, open: bool): Option<bool> {
    if ts == [] then Some(open)
    else if ts[0].Shown? then Carried(ts[1..], open)
    else if Reset(ts[0].params) == open then Carried(ts[1..], !open)
    else None
  }

  lemma {:induction false} CarriedIsBalance(ts: seq<Token>, open: bool)
    ensures Balanced(ts, open) <==> Carried(ts, open) == Some(false)
  {
    if ts != [] {
      CarriedIsBalance(ts[1..], if ts[0].Shown? then open else !open);
    }
  }

  lemma {:induction false} CarriedJoin(a: seq<Token>, b: seq<Token>, open: bool)
    ensures Carried(a + b, open) == if Carried(a, open).Some? then Carried(b, Carried(a, open).value) else None
  {
    if a == [] {
      assert a + b == b;
    } else {
      assert (a + b)[1..] == a[1..] + b;
      CarriedJoin(a[1..], b, if a[0].Shown? then open else !open);
    }
  }

  /** A coded piece ends with a reset, and cannot begin within a rendition. */
  lemma {:induction false} CarriedPiece(p: Piece)
    requires GoodCodes(p.codes) && p.codes != []
    ensures Carried(PieceTokens(p), false).Some? ==> Carried(PieceTokens(p), false) == Some(false)
    ensures Carried(PieceTokens(p), true) == None
  {
    hide Scan, Join, GoodCodes;
    JoinIsGood(p.codes);
    var start, end := [Sgr(Join(p.codes))] + Scan(p.text), [Sgr("0")];
    CarriedJoin(start, end, false);
    assert end[1..] == [];
    assert PieceTokens(p)[0] == Sgr(Join(p.codes));
  }

  /** The output is balanced exactly when every piece is on its own. */
  lemma {:induction false} BalancedByPiece(pieces: seq<Piece>)
    requires Coded(pieces) && Apart(pieces)
    ensures (Carried(AllTokens(pieces), false) == Some(false)) <==>
              (forall p | p in pieces :: Carried(PieceTokens(p), false) == Some(false))
    ensures pieces != [] && pieces[0].codes != [] ==> Carried(AllTokens(pieces), true) == None
  {
    hide PieceTokens, GoodCodes, Carried;
    if pieces == [] {
      assert Carried([], false) == Some(false) by { NothingCarried(); }
    } else {
      var p, rest := pieces[0], pieces[1..];
      BalancedByPiece(rest);
      CarriedJoin(PieceTokens(p), AllTokens(rest), false);
      CarriedJoin(PieceTokens(p), AllTokens(rest), true);
      NothingCarried();
      if p.codes != [] {
        assert p in pieces;
        CarriedPiece(p);
      } else if rest != [] {
        assert pieces[1].codes != [];
      }
      assert forall q :: q in pieces <==> q == p || q in rest;
    }
  }

  lemma NothingCarried()
    ensures forall open :: Carried([], open) == Some(open)
  {
  }

  lemma {:induction false} CharsBalance(p: Piece)
    requires GoodCodes(p.codes) && SgrFree(p.text)
    ensures Carried(PieceTokens(p), false) == Some(false)
  {
    hide Scan, Join, GoodCodes, SgrFree;
    ScanShows(p.text);
    CarriedChars(p.text, false);
    if p.codes != [] {
      JoinIsGood(p.codes);
      CarriedChars(p.text, true);
      var inner, end := Chars(p.text), [Sgr("0")];
      CarriedJoin(inner, end, true);
      assert end[1..] == [] && PieceTokens(p)[1..] == inner + end;
    }
  }

  lemma {:induction false} CarriedChars(text: string, open: bool)
    ensures Carried(Chars(text), open) == Some(open)
    decreases |text|
  {
    if text != "" {
      assert Chars(text)[1..] == Chars(text[1..]);
      CarriedChars(text[1..], open);
    }
  }

  // ------------------------------------------------------------------- the formatter

  lemma {:induction false} EffectCodesAreGood(es: seq<Effect>)
    ensures GoodCodes(EffectCodes(es))
  {
    if es != [] {
      EffectCodesAreGood(es[..|es| - 1]);
    }
  }

  lemma StyleCodesAreGood(style: Style)
    ensures GoodCodes(Codes(style))
  {
    hide EffectCodes;
    EffectCodesAreGood(style.effects);
  }

  lemma SegmentIsCoded(text: string, stack: seq<Style>)
    ensures Coded(Segment(text, stack))
  {
    hide Codes, Collapsed, GoodCodes;
    StyleCodesAreGood(Collapsed(stack));
    assert GoodCodes([]) by { NoneAreGood(); }
  }

  lemma NoneAreGood()
    ensures GoodCodes([])
  {
  }

  lemma {:induction false} PiecesAreCoded(styles: Styles, input: string, cursor: nat, stack: seq<Style>)
    requires cursor <= |input|
    ensures Coded(Pieces(styles, input, cursor, stack))
    ensures ESC !in input ==> forall p | p in Pieces(styles, input, cursor, stack) :: ESC !in p.text
    decreases |input| - cursor
  {
    hide NextTag, GoodCodes, Literal, Restacked, Codes, Collapsed;
    NoneAreGood();
    match NextTag(input, cursor)
    case None => SegmentIsCoded(input[cursor..], stack);
    case Some(t) =>
      SegmentIsCoded(input[cursor..t.start], stack);
      PiecesAreCoded(styles, input, t.end, Restacked(styles, stack, t));
  }

  lemma {:induction false} NoEscapeNoSgr(text: string)
    requires ESC !in text
    ensures SgrFree(text)
  {
    ScanText(text, "");
    assert text + "" == text;
  }

  /** For every input and every palette: without its SGR sequences the decorated output is the undecorated output,
      and a terminal shows each character in the rendition of its own piece, exactly when no text the formatter
      passes through in one stretch contains an SGR sequence. Every sequence that starts a rendition is reset before
      the next exactly when this is so of each stretch on its own. */
  lemma {:induction false} DecorationOnlyDecorates(styles: Styles, input: string)
    ensures var pieces := Pieces(styles, input, 0, []);
            && (Strip(Output(pieces, true)) == Output(pieces, false) <==> AllSgrFree(Merged(pieces)))
            && (Cells(Scan(Output(pieces, true)), "") == PieceCells(pieces) <==> AllSgrFree(Merged(pieces)))
            && (Balanced(Scan(Output(pieces, true)), false) <==> forall p | p in Merged(pieces) ::
                  Balanced(PieceTokens(p), false))
            && (AllSgrFree(Merged(pieces)) ==> Balanced(Scan(Output(pieces, true)), false))
            && (ESC !in input ==> AllSgrFree(Merged(pieces)))
  {
    hide Pieces, Merged, Scan, SgrFree, PieceTokens, GoodCodes, Balanced, Carried, Apart;
    var pieces := Pieces(styles, input, 0, []);
    var merged := Merged(pieces);
    PiecesAreCoded(styles, input, 0, []);
    MergedIsSame(pieces);
    ScanOutput(merged);
    AllShow(merged);
    CellPerCharacter(AllTokens(merged), "");
    if AllSgrFree(merged) {
      ReadAll(merged);
    }
    BalancedByPiece(merged);
    CarriedIsBalance(AllTokens(merged), false);
    forall p | p in merged
      ensures Balanced(PieceTokens(p), false) <==> Carried(PieceTokens(p), false) == Some(false)
      ensures SgrFree(p.text) ==> Balanced(PieceTokens(p), false)
      ensures ESC !in p.text ==> SgrFree(p.text)
    {
      CarriedIsBalance(PieceTokens(p), false);
      if SgrFree(p.text) {
        CharsBalance(p);
      }
      if ESC !in p.text {
        NoEscapeNoSgr(p.text);
      }
    }
  }

  /** An escape sequence in the input itself is not protected: the law fails for it. */
  lemma EscapesBreakStripping()
    ensures var input := [ESC, '[', '1', 'm'];
            var pieces := Pieces(map[], input, 0, []);
            Strip(Output(pieces, true)) != Output(pieces, false) && !Balanced(Scan(Output(pieces, true)), false)
  {
    var input := [ESC, '[', '1', 'm'];
    assert NextTag(input, 4) == None && NextTag(input, 3) == None && NextTag(input, 2) == None
           && NextTag(input, 1) == None;
    assert Pieces(map[], input, 0, []) == [Piece(input, [])];
    assert [Piece(input, [])][1..] == [];
    assert Output([Piece(input, [])], true) == input;
    ScanSgr("1", "");
    assert input == [ESC, '['] + "1" + "m" + "";
    var ts := Scan(input);
    assert ts == [Sgr("1")] + Scan("") && ts[1..] == [];
    assert Visible(ts) == "" + Visible([]) && Balanced(ts, false) == Balanced([], true);
  }

  /** The innermost style that sets a colour decides it, and every effect of every open style is shown once. */
  lemma {:induction false} InnermostDecides(stack: seq<Style>, i: nat)
    requires i < |stack|
    ensures (stack[i].fg.Some? && forall j | i < j < |stack| :: stack[j].fg.None?) ==>
              Collapsed(stack).fg == stack[i].fg
    ensures (stack[i].bg.Some? && forall j | i < j < |stack| :: stack[j].bg.None?) ==>
              Collapsed(stack).bg == stack[i].bg
    ensures Distinct(Collapsed(stack).effects) && forall e | e in stack[i].effects :: e in Collapsed(stack).effects
    decreases |stack|
  {
    UniqueIsSet(AllEffects(stack));
    if i < |stack| - 1 {
      InnermostDecides(stack[..|stack| - 1], i);
      UniqueIsSet(AllEffects(stack[..|stack| - 1]));
    }
  }
}
