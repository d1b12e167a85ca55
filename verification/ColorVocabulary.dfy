/** The fixed colour vocabulary, and that it is a legal one. */
module ColorVocabulary {
  import opened ColorMarkup
  import Decimal

  type Entry = (string, nat)

  function Code(n: nat): string { Decimal.Text(n) }

  /** The parameters that style, colour a foreground or colour a background; nothing else is ever sent. */
  predicate IsColourCode(n: nat) {
    n <= 5 || n == 7 || n == 9 || 30 <= n <= 37 || 40 <= n <= 47 || 90 <= n <= 97 || 100 <= n <= 107
  }

  function Table(es: seq<Entry>): Vocab {
    if es == [] then map[] else Table(es[..|es| - 1])[es[|es| - 1].0 := Code(es[|es| - 1].1)]
  }

  const STYLES: seq<Entry> := [
    ("RESET", 0), ("BOLD", 1), ("DIM", 2), ("ITALIC", 3),
    ("UNDERLINE", 4), ("BLINK", 5), ("REVERSE", 7), ("STRIKE", 9)]

  const FOREGROUND: seq<Entry> := [
    ("FG_BLACK", 30), ("FG_RED", 31), ("FG_GREEN", 32), ("FG_YELLOW", 33),
    ("FG_BLUE", 34), ("FG_MAGENTA", 35), ("FG_CYAN", 36), ("FG_WHITE", 37)]

  const BRIGHT_FOREGROUND: seq<Entry> := [
    ("FG_BRIGHT_BLACK", 90), ("FG_BRIGHT_RED", 91), ("FG_BRIGHT_GREEN", 92), ("FG_BRIGHT_YELLOW", 93),
    ("FG_BRIGHT_BLUE", 94), ("FG_BRIGHT_MAGENTA", 95), ("FG_BRIGHT_CYAN", 96), ("FG_BRIGHT_WHITE", 97)]

  const BACKGROUND: seq<Entry> := [
    ("BG_BLACK", 40), ("BG_RED", 41), ("BG_GREEN", 42), ("BG_YELLOW", 43),
    ("BG_BLUE", 44), ("BG_MAGENTA", 45), ("BG_CYAN", 46), ("BG_WHITE", 47)]

  const BRIGHT_BACKGROUND: seq<Entry> := [
    ("BG_BRIGHT_BLACK", 100), ("BG_BRIGHT_RED", 101), ("BG_BRIGHT_GREEN", 102), ("BG_BRIGHT_YELLOW", 103),
    ("BG_BRIGHT_BLUE", 104), ("BG_BRIGHT_MAGENTA", 105), ("BG_BRIGHT_CYAN", 106), ("BG_BRIGHT_WHITE", 107)]

  const ALL: seq<Entry> := FOREGROUND + BRIGHT_FOREGROUND + BACKGROUND + BRIGHT_BACKGROUND + STYLES

  const SGR_TOKENS: Vocab := Table(ALL)

  predicate EntryOk(e: Entry) {
    IsColourCode(e.1) && forall i | 0 <= i < |e.0| :: e.0[i] != '{' && e.0[i] != '}'
  }

  predicate EntriesOk(es: seq<Entry>) { forall i | 0 <= i < |es| :: EntryOk(es[i]) }

  /** What an entry of the table must be. */
  ghost predicate IsToken(name: string, param: string) {
    && Decimal.IsNumeral(param) && (forall i | 0 <= i < |name| :: name[i] != '{' && name[i] != '}')
    && exists n :: IsColourCode(n) && param == Code(n)
  }

  lemma EntryIsToken(e: Entry)
    requires EntryOk(e)
    ensures IsToken(e.0, Code(e.1))
  {
    Decimal.TextIsDigits(e.1);
  }

  lemma {:induction false} TableOk(es: seq<Entry>, k: string)
    requires EntriesOk(es) && k in Table(es)
    ensures IsToken(k, Table(es)[k])
  {
    hide IsToken, EntryOk, Code;
    var n := |es| - 1;
    if es[n].0 == k {
      EntryIsToken(es[n]);
    } else {
      TableOk(es[..n], k);
    }
  }

  lemma {:induction false} LastGroupWins(es: seq<Entry>, last: seq<Entry>, k: string)
    requires k in Table(last)
    ensures k in Table(es + last) && Table(es + last)[k] == Table(last)[k]
  {
    var all := es + last;
    assert all[..|all| - 1] == es + last[..|last| - 1];
    if last[|last| - 1].0 != k {
      LastGroupWins(es, last[..|last| - 1], k);
    }
  }

  lemma ForegroundOk()
    ensures EntriesOk(FOREGROUND)
  {
    assert EntryOk(FOREGROUND[0]) && EntryOk(FOREGROUND[1]) && EntryOk(FOREGROUND[2]) && EntryOk(FOREGROUND[3]);
    assert EntryOk(FOREGROUND[4]) && EntryOk(FOREGROUND[5]) && EntryOk(FOREGROUND[6]) && EntryOk(FOREGROUND[7]);
  }

  lemma BrightForegroundOk()
    ensures EntriesOk(BRIGHT_FOREGROUND)
  {
    assert EntryOk(BRIGHT_FOREGROUND[0]) && EntryOk(BRIGHT_FOREGROUND[1]) && EntryOk(BRIGHT_FOREGROUND[2])
      && EntryOk(BRIGHT_FOREGROUND[3]);
    assert EntryOk(BRIGHT_FOREGROUND[4]) && EntryOk(BRIGHT_FOREGROUND[5]) && EntryOk(BRIGHT_FOREGROUND[6])
      && EntryOk(BRIGHT_FOREGROUND[7]);
  }

  lemma BackgroundOk()
    ensures EntriesOk(BACKGROUND)
  {
    assert EntryOk(BACKGROUND[0]) && EntryOk(BACKGROUND[1]) && EntryOk(BACKGROUND[2]) && EntryOk(BACKGROUND[3]);
    assert EntryOk(BACKGROUND[4]) && EntryOk(BACKGROUND[5]) && EntryOk(BACKGROUND[6]) && EntryOk(BACKGROUND[7]);
  }

  lemma BrightBackgroundOk()
    ensures EntriesOk(BRIGHT_BACKGROUND)
  {
    assert EntryOk(BRIGHT_BACKGROUND[0]) && EntryOk(BRIGHT_BACKGROUND[1]) && EntryOk(BRIGHT_BACKGROUND[2])
      && EntryOk(BRIGHT_BACKGROUND[3]);
    assert EntryOk(BRIGHT_BACKGROUND[4]) && EntryOk(BRIGHT_BACKGROUND[5]) && EntryOk(BRIGHT_BACKGROUND[6])
      && EntryOk(BRIGHT_BACKGROUND[7]);
  }

  lemma ResetMapsToZero()
    ensures "RESET" in Table(STYLES) && Table(STYLES)["RESET"] == "0"
  {
    var first := STYLES[..1];
    assert first[..0] == [] && Table(first) == map["RESET" := Code(0)];
    assert STYLES == first + STYLES[1..];
    EntryKept(first, STYLES[1..], "RESET");
  }

  /** Later entries under other names leave an entry alone. */
  lemma {:induction false} EntryKept(first: seq<Entry>, more: seq<Entry>, name: string)
    requires name in Table(first) && forall i | 0 <= i < |more| :: more[i].0 != name
    ensures name in Table(first + more) && Table(first + more)[name] == Table(first)[name]
  {
    if more == [] {
      assert first + more == first;
    } else {
      var all := first + more;
      assert all[..|all| - 1] == first + more[..|more| - 1];
      EntryKept(first, more[..|more| - 1], name);
    }
  }

  lemma JoinedOk(a: seq<Entry>, b: seq<Entry>)
    requires EntriesOk(a) && EntriesOk(b)
    ensures EntriesOk(a + b)
  {
  }

  lemma LegalFromEntries(others: seq<Entry>, last: seq<Entry>)
    requires EntriesOk(others) && EntriesOk(last)
    requires "RESET" in Table(last) && Table(last)["RESET"] == "0"
    ensures Legal(Table(others + last))
    ensures forall k | k in Table(others + last) :: exists n :: IsColourCode(n) && Table(others + last)[k] == Code(n)
  {
    hide Table, EntriesOk, Code;
    JoinedOk(others, last);
    forall k | k in Table(others + last) ensures IsToken(k, Table(others + last)[k]) {
      TableOk(others + last, k);
    }
    LastGroupWins(others, last, "RESET");
  }

  /** The shipped table is a legal vocabulary, and every parameter it can produce is a colour code. */
  lemma TableIsLegal()
    ensures Legal(SGR_TOKENS)
    ensures forall k | k in SGR_TOKENS :: exists n :: IsColourCode(n) && SGR_TOKENS[k] == Code(n)
  {
    ForegroundOk();
    BrightForegroundOk();
    BackgroundOk();
    BrightBackgroundOk();
    JoinedOk(FOREGROUND, BRIGHT_FOREGROUND);
    JoinedOk(FOREGROUND + BRIGHT_FOREGROUND, BACKGROUND);
    JoinedOk(FOREGROUND + BRIGHT_FOREGROUND + BACKGROUND, BRIGHT_BACKGROUND);
    ResetMapsToZero();
    LegalFromEntries(FOREGROUND + BRIGHT_FOREGROUND + BACKGROUND + BRIGHT_BACKGROUND, STYLES);
  }

  // ---- the table is systematic ----------------------------------------------------------------

  /** The eight colours in the order of their codes. */
  const COLOURS: seq<string> := ["BLACK", "RED", "GREEN", "YELLOW", "BLUE", "MAGENTA", "CYAN", "WHITE"]

  /** One family of colours: a prefix and the code of its first colour. */
  predicate IsFamily(es: seq<Entry>, prefix: string, first: nat) {
    |es| == 8 && forall i | 0 <= i < 8 :: es[i] == (prefix + COLOURS[i], first + i)
  }

  lemma Families()
    ensures IsFamily(FOREGROUND, "FG_", 30) && IsFamily(BRIGHT_FOREGROUND, "FG_BRIGHT_", 90)
    ensures IsFamily(BACKGROUND, "BG_", 40) && IsFamily(BRIGHT_BACKGROUND, "BG_BRIGHT_", 100)
  {
    ForegroundFamily();
    BrightForegroundFamily();
    BackgroundFamily();
    BrightBackgroundFamily();
  }

  lemma ForegroundFamily()
    ensures IsFamily(FOREGROUND, "FG_", 30)
  {
    assert "FG_" + "BLACK" == "FG_BLACK" && "FG_" + "RED" == "FG_RED";
    assert "FG_" + "GREEN" == "FG_GREEN" && "FG_" + "YELLOW" == "FG_YELLOW";
    assert "FG_" + "BLUE" == "FG_BLUE" && "FG_" + "MAGENTA" == "FG_MAGENTA";
    assert "FG_" + "CYAN" == "FG_CYAN" && "FG_" + "WHITE" == "FG_WHITE";
    forall i | 0 <= i < 8 ensures FOREGROUND[i] == ("FG_" + COLOURS[i], 30 + i) {
      OneOfEight(i);
    }
  }

  lemma BrightForegroundFamily()
    ensures IsFamily(BRIGHT_FOREGROUND, "FG_BRIGHT_", 90)
  {
    assert "FG_BRIGHT_" + "BLACK" == "FG_BRIGHT_BLACK" && "FG_BRIGHT_" + "RED" == "FG_BRIGHT_RED";
    assert "FG_BRIGHT_" + "GREEN" == "FG_BRIGHT_GREEN" && "FG_BRIGHT_" + "YELLOW" == "FG_BRIGHT_YELLOW";
    assert "FG_BRIGHT_" + "BLUE" == "FG_BRIGHT_BLUE" && "FG_BRIGHT_" + "MAGENTA" == "FG_BRIGHT_MAGENTA";
    assert "FG_BRIGHT_" + "CYAN" == "FG_BRIGHT_CYAN" && "FG_BRIGHT_" + "WHITE" == "FG_BRIGHT_WHITE";
    forall i | 0 <= i < 8 ensures BRIGHT_FOREGROUND[i] == ("FG_BRIGHT_" + COLOURS[i], 90 + i) {
      OneOfEight(i);
    }
  }

  lemma BackgroundFamily()
    ensures IsFamily(BACKGROUND, "BG_", 40)
  {
    assert "BG_" + "BLACK" == "BG_BLACK" && "BG_" + "RED" == "BG_RED";
    assert "BG_" + "GREEN" == "BG_GREEN" && "BG_" + "YELLOW" == "BG_YELLOW";
    assert "BG_" + "BLUE" == "BG_BLUE" && "BG_" + "MAGENTA" == "BG_MAGENTA";
    assert "BG_" + "CYAN" == "BG_CYAN" && "BG_" + "WHITE" == "BG_WHITE";
    forall i | 0 <= i < 8 ensures BACKGROUND[i] == ("BG_" + COLOURS[i], 40 + i) {
      OneOfEight(i);
    }
  }

  lemma BrightBackgroundFamily()
    ensures IsFamily(BRIGHT_BACKGROUND, "BG_BRIGHT_", 100)
  {
    assert "BG_BRIGHT_" + "BLACK" == "BG_BRIGHT_BLACK" && "BG_BRIGHT_" + "RED" == "BG_BRIGHT_RED";
    assert "BG_BRIGHT_" + "GREEN" == "BG_BRIGHT_GREEN" && "BG_BRIGHT_" + "YELLOW" == "BG_BRIGHT_YELLOW";
    assert "BG_BRIGHT_" + "BLUE" == "BG_BRIGHT_BLUE" && "BG_BRIGHT_" + "MAGENTA" == "BG_BRIGHT_MAGENTA";
    assert "BG_BRIGHT_" + "CYAN" == "BG_BRIGHT_CYAN" && "BG_BRIGHT_" + "WHITE" == "BG_BRIGHT_WHITE";
    forall i | 0 <= i < 8 ensures BRIGHT_BACKGROUND[i] == ("BG_BRIGHT_" + COLOURS[i], 100 + i) {
      OneOfEight(i);
    }
  }

  lemma OneOfEight(i: nat)
    requires i < 8
    ensures i == 0 || i == 1 || i == 2 || i == 3 || i == 4 || i == 5 || i == 6 || i == 7
  {
  }

  /** Which family, if any, a name belongs to; styles belong to none. */
  function FamilyOf(name: string): nat {
    if |name| < 3 || name[1] != 'G' || name[2] != '_' then 0
    else (if name[0] == 'F' then 1 else 2) + if |name| > 9 && name[9] == '_' then 2 else 0
  }

  predicate AllOf(es: seq<Entry>, family: nat) { forall i | 0 <= i < |es| :: FamilyOf(es[i].0) == family }

  lemma FamiliesApart()
    ensures AllOf(FOREGROUND, 1) && AllOf(BRIGHT_FOREGROUND, 3) && AllOf(BACKGROUND, 2) && AllOf(BRIGHT_BACKGROUND, 4)
    ensures AllOf(STYLES, 0)
  {
  }

  /** Two colours of one family have two names. */
  lemma ColoursApart(prefix: string, i: nat, j: nat)
    requires i < j < 8
    ensures prefix + COLOURS[i] != prefix + COLOURS[j]
  {
    assert (prefix + COLOURS[i])[|prefix|..] == COLOURS[i] && (prefix + COLOURS[j])[|prefix|..] == COLOURS[j];
    OneOfEight(i);
    OneOfEight(j);
  }

  lemma FamilyKept(es: seq<Entry>, prefix: string, first: nat, i: nat)
    requires IsFamily(es, prefix, first) && i < 8
    ensures prefix + COLOURS[i] in Table(es) && Table(es)[prefix + COLOURS[i]] == Code(first + i)
  {
    hide Code;
    var name := prefix + COLOURS[i];
    forall j | i < j < 8 ensures es[j].0 != name {
      ColoursApart(prefix, i, j);
    }
    assert es[..i + 1][..i] == es[..i] && es == es[..i + 1] + es[i + 1..];
    EntryKept(es[..i + 1], es[i + 1..], name);
  }

  /** An entry of one group survives later groups of other families. */
  lemma GroupKept(before: seq<Entry>, es: seq<Entry>, after: seq<Entry>, name: string)
    requires name in Table(es) && forall i | 0 <= i < |after| :: FamilyOf(after[i].0) != FamilyOf(name)
    ensures name in Table(before + es + after) && Table(before + es + after)[name] == Table(es)[name]
  {
    hide FamilyOf, Table;
    LastGroupWins(before, es, name);
    EntryKept(before + es, after, name);
  }

  lemma AfterApart(a: seq<Entry>, b: seq<Entry>, family: nat)
    requires forall i | 0 <= i < |a| :: FamilyOf(a[i].0) != family
    requires forall i | 0 <= i < |b| :: FamilyOf(b[i].0) != family
    ensures forall i | 0 <= i < |a + b| :: FamilyOf((a + b)[i].0) != family
  {
    hide FamilyOf;
  }

  /** A colour of one family is looked up as in its group, whichever groups come before and after. */
  lemma ColourFound(
    before: seq<Entry>, es: seq<Entry>, after: seq<Entry>, prefix: string, first: nat, family: nat, i: nat)
    requires before + es + after == ALL && IsFamily(es, prefix, first) && AllOf(es, family) && i < 8
    requires forall k | 0 <= k < |after| :: FamilyOf(after[k].0) != family
    ensures prefix + COLOURS[i] in SGR_TOKENS && SGR_TOKENS[prefix + COLOURS[i]] == Decimal.Text(first + i)
  {
    hide Table, FamilyOf;
    assert es[i].0 == prefix + COLOURS[i];
    FamilyKept(es, prefix, first, i);
    GroupKept(before, es, after, prefix + COLOURS[i]);
  }

  /** Every colour in each of its four forms has the code the terminals give it. */
  lemma ColoursAreSystematic(i: nat)
    requires i < 8
    ensures "FG_" + COLOURS[i] in SGR_TOKENS && SGR_TOKENS["FG_" + COLOURS[i]] == Decimal.Text(30 + i)
    ensures "BG_" + COLOURS[i] in SGR_TOKENS && SGR_TOKENS["BG_" + COLOURS[i]] == Decimal.Text(40 + i)
    ensures "FG_BRIGHT_" + COLOURS[i] in SGR_TOKENS && SGR_TOKENS["FG_BRIGHT_" + COLOURS[i]] == Decimal.Text(90 + i)
    ensures "BG_BRIGHT_" + COLOURS[i] in SGR_TOKENS && SGR_TOKENS["BG_BRIGHT_" + COLOURS[i]] == Decimal.Text(100 + i)
  {
    Families();
    FamiliesApart();
    hide Table, FamilyOf, IsFamily, SGR_TOKENS;
    var (f, bf, b, bb, st) := (FOREGROUND, BRIGHT_FOREGROUND, BACKGROUND, BRIGHT_BACKGROUND, STYLES);
    GroupsInOrder(f, bf, b, bb, st);
    AfterApart(bb, st, 1);
    AfterApart(b, bb + st, 1);
    AfterApart(bf, b + (bb + st), 1);
    AfterApart(bb, st, 2);
    AfterApart(bb, st, 3);
    AfterApart(b, bb + st, 3);
    ColourFound([], f, bf + (b + (bb + st)), "FG_", 30, 1, i);
    ColourFound(f, bf, b + (bb + st), "FG_BRIGHT_", 90, 3, i);
    ColourFound(f + bf, b, bb + st, "BG_", 40, 2, i);
    ColourFound(f + bf + b, bb, st, "BG_BRIGHT_", 100, 4, i);
  }

  lemma GroupsInOrder(f: seq<Entry>, bf: seq<Entry>, b: seq<Entry>, bb: seq<Entry>, st: seq<Entry>)
    ensures [] + f + (bf + (b + (bb + st))) == f + bf + b + bb + st
    ensures f + bf + (b + (bb + st)) == f + bf + b + bb + st
    ensures f + bf + b + (bb + st) == f + bf + b + bb + st
  {
  }
}
