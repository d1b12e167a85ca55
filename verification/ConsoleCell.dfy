/**
  Laying a cell into a fixed-width slot: truncate, isolate right-to-left text, pad.  A fitted cell always
  has exactly its width, even where one truncation alone would overflow: the padder truncates again, and
  that second cut never lands on a lone brace.
*/
module ConsoleCell {
  import opened Basics
  import opened ColorMarkup
  import opened ConsoleText
  import opened ConsoleFit

  datatype Align = Left | Right | Center

  function Isolate(m: Metrics, s: string): string {
    if exists i :: 0 <= i < |s| && m.rtl(s[i]) then [FSI] + s + [PDI] else s
  }

  function PadTo(s: string, pad: nat, align: Align): string {
    match align
    case Right => Repeat(' ', pad) + s + []
    case Center => Repeat(' ', pad / 2) + s + Repeat(' ', pad - pad / 2)
    case Left => [] + s + Repeat(' ', pad)
  }

  /** padVisible: an over-wide text is truncated first; one still too wide is returned as it is. */
  function Pad(m: Metrics, v: Vocab, s: string, width: int, align: Align): string {
    var t := if VisibleWidth(m, v, s) > width then Truncate(m, v, s, width) else s;
    var pad := width - VisibleWidth(m, v, t);
    if pad <= 0 then t else PadTo(t, pad, align)
  }

  /** The content of a slot before padding. */
  function Content(m: Metrics, v: Vocab, content: string, width: int): string {
    Isolate(m, if VisibleWidth(m, v, content) > width then Truncate(m, v, content, width) else content)
  }

  function Fit(m: Metrics, v: Vocab, content: string, width: int, align: Align): string {
    Pad(m, v, Content(m, v, content, width), width, align)
  }

  // ---- isolating and padding ------------------------------------------------------------------

  /** The pieces an isolate puts around a text: nothing, or FSI and PDI. */
  predicate Brackets(pre: string, post: string) {
    (pre == [] && post == []) || (pre == [FSI] && post == [PDI])
  }

  lemma IsolateWraps(m: Metrics, s: string) returns (pre: string, post: string)
    ensures Isolate(m, s) == pre + s + post && Brackets(pre, post) && Braceless(pre) && Braceless(post)
    ensures pre == [FSI] <==> exists i :: 0 <= i < |s| && m.rtl(s[i])
  {
    if exists i :: 0 <= i < |s| && m.rtl(s[i]) {
      pre, post := [FSI], [PDI];
    } else {
      pre, post := [], [];
      assert [] + s + [] == s;
    }
  }

  lemma IsolateWidth(m: Metrics, v: Vocab, s: string)
    requires Cells(m)
    ensures VisibleWidth(m, v, Isolate(m, s)) == VisibleWidth(m, v, s)
  {
    var pre, post := IsolateWraps(m, s);
    WrapWidth(m, v, pre, s, post);
  }

  lemma PadWidth(m: Metrics, v: Vocab, s: string, pad: nat, align: Align)
    requires Cells(m)
    ensures VisibleWidth(m, v, PadTo(s, pad, align)) == VisibleWidth(m, v, s) + pad
  {
    hide VisibleWidth;
    var l := match align case Right => pad case Center => pad / 2 case Left => 0;
    var (a, b) := (Repeat(' ', l), Repeat(' ', pad - l));
    RepeatWidth(m, ' ', l);
    RepeatWidth(m, ' ', pad - l);
    assert PadTo(s, pad, align) == a + s + b;
    WrapWidth(m, v, a, s, b);
  }

  /** Padding reaches exactly the width whenever the content fits, or its truncation does. */
  lemma PadExact(m: Metrics, v: Vocab, s: string, width: nat, align: Align)
    requires Cells(m) && Legal(v)
    requires VisibleWidth(m, v, s) > width > 0 ==> !LoneBraceCut(m, v, s, width)
    ensures VisibleWidth(m, v, Pad(m, v, s, width, align)) == width
  {
    hide VisibleWidth, Truncate, LoneBraceCut, PadTo;
    var t := if VisibleWidth(m, v, s) > width then Truncate(m, v, s, width) else s;
    assert VisibleWidth(m, v, t) <= width by {
      if VisibleWidth(m, v, s) > width {
        if width > 0 {
          TruncateFits(m, v, s, width);
        } else {
          EmptyWidth(m, v, s);
        }
      }
    }
    PadWidth(m, v, t, width - VisibleWidth(m, v, t), align);
  }

  lemma EmptyWidth(m: Metrics, v: Vocab, s: string)
    ensures VisibleWidth(m, v, Truncate(m, v, s, 0)) == 0
  {
  }

  // ---- the second truncation ------------------------------------------------------------------

  lemma KeptIs(m: Metrics, v: Vocab, u: string, width: nat, kept: seq<Piece>)
    requires width > 0 && |kept| < |Lex(v, u)| && kept == Lex(v, u)[..|kept|]
    requires Width(m, kept) < width <= Width(m, kept) + PieceWidth(m, Lex(v, u)[|kept|])
    ensures Kept(m, v, u, width) == kept
  {
    KeepIs(m, Lex(v, u), width - 1, |kept|);
  }

  /** After a spoilt cut the text is too wide, but cutting it again is clean. */
  lemma SecondCutIsClean(m: Metrics, v: Vocab, s: string, width: nat, pre: string, post: string)
    requires Cells(m) && Legal(v) && LoneBraceCut(m, v, s, width) && Brackets(pre, post)
    requires Braceless(pre) && Braceless(post)
    ensures !LoneBraceCut(m, v, pre + Truncate(m, v, s, width) + post, width)
  {
    hide Lex, ColourOpen, Isolates, Truncate, Width, Keep, SpoiltText, Chars;
    var kept := Kept(m, v, s, width);
    var (init, d) := (kept[..|kept| - 1], Isolates(kept));
    var u := pre + Truncate(m, v, s, width) + post;
    var front := Chars(pre) + init;
    SpoiltWrapped(m, v, s, width, pre, post);
    LoneBraceCutFails(m, v, s, width);
    FrontWidth(m, pre, post, kept);
    WidthOne(m, front, Pair);
    if Width(m, front) == width - 2 {
      KeptIs(m, v, u, width, front);
      InitLast(m, v, s, width);
      FrontLast(pre, post, init);
    } else {
      assert front + [Pair] == Lex(v, u)[..|front| + 1];
      KeptIs(m, v, u, width, front + [Pair]);
    }
  }

  /** The pieces of the overflowing text, isolated or not. */
  lemma SpoiltWrapped(m: Metrics, v: Vocab, s: string, width: nat, pre: string, post: string)
    requires Legal(v) && LoneBraceCut(m, v, s, width) && Braceless(pre) && Braceless(post)
    ensures var kept := Kept(m, v, s, width);
            var (front, lex) := (Chars(pre) + kept[..|kept| - 1], Lex(v, pre + Truncate(m, v, s, width) + post));
            |lex| > |front| + 1 && lex[..|front|] == front && lex[|front|] == Pair && lex[|front| + 1] == Chr('{')
  {
    hide Lex, ColourOpen, Isolates, Truncate, SpoiltText, Chars;
    var kept := Kept(m, v, s, width);
    var (init, t) := (kept[..|kept| - 1], Truncate(m, v, s, width));
    SpoiltCutLex(m, v, s, width);
    Assoc(pre, t, post);
    LexPrefix(v, pre, t + post);
    LexSuffix(v, t, post);
    var tail := Chars(SpoiltText(Isolates(kept))) + Chars(post);
    assert Lex(v, pre + t + post) == Chars(pre) + init + ([Pair, Chr('{')] + tail);
  }

  lemma FrontWidth(m: Metrics, pre: string, post: string, kept: seq<Piece>)
    requires Cells(m) && Brackets(pre, post) && kept != [] && kept[|kept| - 1] == Chr('{')
    ensures Width(m, Chars(pre) + kept[..|kept| - 1]) == Width(m, kept) - 1
  {
    hide Width;
    var init := kept[..|kept| - 1];
    assert kept == init + [Chr('{')];
    WidthOne(m, init, Chr('{'));
    WidthSplit(m, Chars(pre), init);
    CharsWidth(m, pre);
  }

  lemma FrontLast(pre: string, post: string, init: seq<Piece>)
    requires Brackets(pre, post) && (init != [] ==> init[|init| - 1] != Chr('{'))
    ensures var front := Chars(pre) + init;
            front != [] ==> front[|front| - 1] != Chr('{')
  {
  }

  lemma InitLast(m: Metrics, v: Vocab, s: string, width: nat)
    requires LoneBraceCut(m, v, s, width)
    ensures var kept := Kept(m, v, s, width);
            |kept| > 1 ==> kept[|kept| - 2] != Chr('{')
  {
    hide Lex, ColourOpen;
    var kept := Kept(m, v, s, width);
    if |kept| > 1 && kept[|kept| - 2] == Chr('{') {
      NoDoubleBrace(v, s, |kept| - 2);
    }
  }

  /** A fitted cell is exactly as wide as its slot, for every content. */
  lemma FitExact(m: Metrics, v: Vocab, content: string, width: nat, align: Align)
    requires Cells(m) && Legal(v)
    ensures VisibleWidth(m, v, Fit(m, v, content, width, align)) == width
  {
    hide VisibleWidth, Truncate, LoneBraceCut, Pad, Isolate;
    var t := if VisibleWidth(m, v, content) > width then Truncate(m, v, content, width) else content;
    IsolateWidth(m, v, t);
    if VisibleWidth(m, v, content) > width && width > 0 {
      if LoneBraceCut(m, v, content, width) {
        var pre, post := IsolateWraps(m, t);
        SecondCutIsClean(m, v, content, width, pre, post);
      } else {
        TruncateFits(m, v, content, width);
      }
    } else if width == 0 {
      EmptyWidth(m, v, content);
    }
    PadExact(m, v, Isolate(m, t), width, align);
  }

  /** How padding is shared out: all on the right, all on the left, or in halves, the odd cell right. */
  predicate Shares(align: Align, left: nat, right: nat) {
    match align
    case Left => left == 0
    case Right => right == 0
    case Center => right == left || right == left + 1
  }

  /** Content that fits its slot is shown whole, isolated iff it has right-to-left text, with nothing around
      it but the padding its alignment asks for. */
  lemma FitShowsContent(m: Metrics, v: Vocab, content: string, width: nat, align: Align)
    returns (pre: string, post: string, left: nat, right: nat)
    requires Cells(m) && Legal(v) && VisibleWidth(m, v, content) <= width
    ensures Brackets(pre, post) && (pre == [FSI] <==> exists i :: 0 <= i < |content| && m.rtl(content[i]))
    ensures left + right == width - VisibleWidth(m, v, content) && Shares(align, left, right)
    ensures var (a, b) := (Repeat(' ', left) + pre, post + Repeat(' ', right));
            && Fit(m, v, content, width, align) == a + content + b
            && Strip(v, Fit(m, v, content, width, align)) == a + Strip(v, content) + b
  {
    hide VisibleWidth, Isolate, Fit, Repeat, Strip;
    pre, post := IsolateWraps(m, content);
    var pad := width - VisibleWidth(m, v, content);
    left := match align case Right => pad case Center => pad / 2 case Left => 0;
    right := pad - left;
    var (x, y) := (Repeat(' ', left), Repeat(' ', right));
    Spaces(left);
    Spaces(right);
    FitIsPadded(m, v, content, width, align);
    Assoc(x, pre + content, post);
    Assoc(x, pre, content);
    Assoc(x + pre + content, post, y);
    WrapStrip(v, x + pre, content, post + y);
  }

  /** Every cell: content too wide for its slot is truncated to it; text with a right-to-left character is put in an
      isolate; should that still be too wide it is truncated again; the rest is padding, shared out as the
      alignment asks. */
  lemma FitMeans(m: Metrics, v: Vocab, content: string, width: nat, align: Align)
    returns (pre: string, post: string, left: nat, right: nat)
    requires Cells(m) && Legal(v)
    ensures var t := if VisibleWidth(m, v, content) <= width then content else Truncate(m, v, content, width);
            && (if exists i :: 0 <= i < |t| && m.rtl(t[i]) then pre == ['\U{2068}'] && post == ['\U{2069}']
                else pre == post == "")
            && var w := pre + t + post;
               var u := if VisibleWidth(m, v, w) <= width then w else Truncate(m, v, w, width);
               && left + right == width - VisibleWidth(m, v, u) && Shares(align, left, right)
               && Fit(m, v, content, width, align) == Repeat(' ', left) + u + Repeat(' ', right)
  {
    hide VisibleWidth, Isolate, Repeat, Truncate;
    var t := if VisibleWidth(m, v, content) <= width then content else Truncate(m, v, content, width);
    pre, post := IsolateWraps(m, t);
    var w := Isolate(m, t);
    var u := if VisibleWidth(m, v, w) <= width then w else Truncate(m, v, w, width);
    FitExact(m, v, content, width, align);
    CellFits(m, v, content, width);
    var pad := width - VisibleWidth(m, v, u);
    left := match align case Right => pad case Center => pad / 2 case Left => 0;
    right := pad - left;
    assert Repeat(' ', 0) == [] by { Spaces(0); }
    assert [] + u + [] == u;
  }

  /** What a cell finally holds is no wider than its slot. */
  lemma CellFits(m: Metrics, v: Vocab, content: string, width: nat)
    requires Cells(m) && Legal(v)
    ensures var w := Content(m, v, content, width);
            VisibleWidth(m, v, if VisibleWidth(m, v, w) > width then Truncate(m, v, w, width) else w) <= width
  {
    hide VisibleWidth, Truncate, Content, PadTo;
    var w := Content(m, v, content, width);
    var u := if VisibleWidth(m, v, w) > width then Truncate(m, v, w, width) else w;
    FitExact(m, v, content, width, Left);
  }

  lemma FitIsPadded(m: Metrics, v: Vocab, content: string, width: nat, align: Align)
    requires Cells(m) && VisibleWidth(m, v, content) <= width
    ensures var pad := width - VisibleWidth(m, v, content);
            var l := match align case Right => pad case Center => pad / 2 case Left => 0;
            Fit(m, v, content, width, align) == Repeat(' ', l) + Isolate(m, content) + Repeat(' ', pad - l)
  {
    hide VisibleWidth, Isolate, Truncate;
    IsolateWidth(m, v, content);
  }

  lemma Spaces(n: nat)
    ensures |Repeat(' ', n)| == n && Braceless(Repeat(' ', n))
    ensures forall i | 0 <= i < n :: Repeat(' ', n)[i] == ' '
  {
  }

  lemma WrapStrip(v: Vocab, a: string, s: string, b: string)
    requires Braceless(a) && Braceless(b)
    ensures Strip(v, a + s + b) == a + Strip(v, s) + b
  {
    Assoc(a, s, b);
    LexPrefix(v, a, s + b);
    LexSuffix(v, s, b);
    PlainSplit(Chars(a), Lex(v, s) + Chars(b));
    PlainSplit(Lex(v, s), Chars(b));
    CharsShown(a);
    CharsShown(b);
  }
}
