/**
 The tokenizer of quoted command lines. A text is the characters before the zero that
 ends it, so reading past the end yields that zero.
 */
module Tokenizer {
  const QUOTE := '\"'

  predicate IsSpace(c: char) {
    c == ' ' || c == '\t' || c == '\n' || c == '\r' || c == 11 as char || c == 12 as char
  }

  /** Where a token ends, or a syntax error. */
  datatype End = At(en: nat) | Syntax

  /** What the user's handler says to a syntax error, and how tokenizing ended. */
  datatype Control = Continue | Terminate

  // ----- the specification

  function AfterSpaces(s: string, i: nat): (j: nat)
    requires i <= |s|
    ensures i <= j <= |s|
    decreases |s| - i
  {
    if i < |s| && IsSpace(s[i]) then AfterSpaces(s, i + 1) else i
  }

  function PlainEnd(s: string, i: nat): (j: nat)
    requires i <= |s|
    ensures i <= j <= |s|
    decreases |s| - i
  {
    if i < |s| && !IsSpace(s[i]) then PlainEnd(s, i + 1) else i
  }

  /** From inside a quoted token. A doubled quote goes on; a single one must be followed by space or the end. */
  function QuotedEnd(s: string, i: nat): (e: End)
    requires i <= |s|
    ensures e.At? ==> i < e.en <= |s|
    decreases |s| - i
  {
    if i == |s| then Syntax
    else if s[i] != QUOTE then QuotedEnd(s, i + 1)
    else if i + 1 == |s| || IsSpace(s[i + 1]) then At(i + 1)
    else if s[i + 1] == QUOTE then QuotedEnd(s, i + 2)
    else Syntax
  }

  function TokenEnd(s: string, st: nat): (e: End)
    requires st < |s|
    ensures e.At? && !IsSpace(s[st]) ==> st < e.en <= |s|
  {
    if s[st] == QUOTE then QuotedEnd(s, st + 1) else At(PlainEnd(s, st))
  }

  /** The characters of a quoted token from src to en: doubled quotes become single, the last is dropped. */
  function Unquoted(s: string, src: nat, en: nat): string
    requires src <= en + 1 && en <= |s|
    decreases en + 1 - src
  {
    if src >= en then []
    else if s[src] != QUOTE then [s[src]] + Unquoted(s, src + 1, en)
    else if src + 1 == en then []
    else [s[src + 1]] + Unquoted(s, src + 2, en)
  }

  function TokenText(s: string, st: nat, en: nat): string
    requires st < en <= |s|
  {
    if s[st] == QUOTE then Unquoted(s, st + 1, en) else s[st..en]
  }

  /** The tokens of s from i, when the handler answers c to a syntax error; a token in error counts as empty, and is
   the last. */
  function Tokens(s: string, i: nat, c: Control): (r: (Control, seq<string>))
    requires i <= |s|
    decreases |s| - i
  {
    var st := AfterSpaces(s, i);
    if st == |s| then (Continue, [])
    else
      NotSpace(s, i);
      match TokenEnd(s, st)
      case Syntax => (c, if c == Continue then [""] else [])
      case At(en) =>
        var (res, rest) := Tokens(s, en, c);
        (res, if res == Continue then [TokenText(s, st, en)] + rest else [])
  }

  lemma {:induction false} NotSpace(s: string, i: nat)
    requires i <= |s| && AfterSpaces(s, i) < |s|
    ensures !IsSpace(s[AfterSpaces(s, i)])
    decreases |s| - i
  {
    if i < |s| && IsSpace(s[i]) { NotSpace(s, i + 1); }
  }

  // ----- the original loops

  /** scan_token. */
  method ScanToken(s: string, st: nat) returns (e: End)
    requires st < |s|
    ensures e == TokenEnd(s, st)
  {
    if s[st] == QUOTE {
      var en := st + 1;
      while en < |s|
        invariant st < en <= |s| && QuotedEnd(s, en) == TokenEnd(s, st)
      {
        if s[en] == QUOTE {
          en := en + 1;
          if en == |s| || s[en] != QUOTE {
            if en == |s| || IsSpace(s[en]) { return At(en); }
            return Syntax;
          }
        }
        en := en + 1;
      }
      return Syntax;
    } else {
      var en := st;
      while en < |s| && !IsSpace(s[en])
        invariant st <= en <= |s| && PlainEnd(s, en) == PlainEnd(s, st)
      {
        en := en + 1;
      }
      return At(en);
    }
  }

  /** What is left of a token's text from src on. */
  function Rest(s: string, quoted: bool, src: nat, en: nat): string
    requires src <= en + 1 && en <= |s|
  {
    if quoted then Unquoted(s, src, en) else if src < en then s[src..en] else []
  }

  lemma WholeRest(s: string, st: nat, en: nat)
    requires st < en <= |s|
    ensures TokenText(s, st, en) == Rest(s, s[st] == QUOTE, if s[st] == QUOTE then st + 1 else st, en)
  {
    hide Unquoted;
  }

  lemma RestEnds(s: string, quoted: bool, en: nat)
    requires en <= |s|
    ensures Rest(s, quoted, en, en) == [] && Rest(s, quoted, en + 1, en) == []
  {
  }

  lemma RestStep(s: string, quoted: bool, src: nat, en: nat)
    requires src < en <= |s|
    ensures Rest(s, quoted, src, en) ==
            if !quoted || s[src] != QUOTE then [s[src]] + Rest(s, quoted, src + 1, en)
            else if src + 1 == en then [] else [s[src + 1]] + Rest(s, quoted, src + 2, en)
  {
  }

  /** copy_token, of a token without error. */
  method CopyToken(s: string, st: nat, en: nat) returns (text: string)
    requires st < en <= |s|
    ensures text == TokenText(s, st, en)
  {
    hide Rest, TokenText;
    text := "";
    var quoted := s[st] == QUOTE;
    var src := if quoted then st + 1 else st;
    WholeRest(s, st, en);
    RestEnds(s, quoted, en);
    while src < en
      invariant st <= src <= en + 1 && text + Rest(s, quoted, src, en) == TokenText(s, st, en)
      decreases en - src
    {
      RestStep(s, quoted, src, en);
      if s[src] == QUOTE && quoted {
        src := src + 1;
        if src == en { break; }
      }
      text := text + [s[src]];
      src := src + 1;
    }
  }

  /** parse_string: the table of tokens is allocated once their number is known, and filled on the way back. */
  method ParseString(s: string, i: nat, n: nat, c: Control) returns (res: Control, argc: nat, argv: array?<string>)
    requires i <= |s|
    ensures res == Tokens(s, i, c).0
    ensures res == Continue ==> argc == n + |Tokens(s, i, c).1| && (argc == 0 <==> argv == null)
    ensures res == Continue && argv != null ==> fresh(argv) && argv.Length == argc && argv[n..] == Tokens(s, i, c).1
    ensures res == Terminate ==> argc == 0
    decreases |s| - i
  {
    res, argc, argv := Continue, n, null;
    var st := i;
    while st < |s| && IsSpace(s[st])
      invariant i <= st <= |s| && AfterSpaces(s, st) == AfterSpaces(s, i)
    {
      st := st + 1;
    }
    if st == |s| {
      if n != 0 { argv := new string[n](_ => ""); }
      return;
    }
    var e := ScanToken(s, st);
    match e {
      case Syntax =>
        if c == Terminate { return Terminate, 0, null; }
        argv := new string[n + 1](_ => "");
        argc := n + 1;
        assert argv[n..] == [""];
      case At(en) =>
        res, argc, argv := ParseString(s, en, n + 1, c);
        if res == Terminate { return; }
        ghost var rest := argv[n + 1..];
        argv[n] := CopyToken(s, st, en);
        assert argv[n + 1..] == rest;
        assert argv[n..] == [argv[n]] + argv[n + 1..];
    }
  }

  // ----- tokenizing undoes quoting

  function Doubled(w: string): string {
    if w == [] then [] else (if w[0] == QUOTE then [QUOTE, QUOTE] else [w[0]]) + Doubled(w[1..])
  }

  function Quoted(w: string): string {
    [QUOTE] + Doubled(w) + [QUOTE]
  }

  /** A word of a command line, written in quotes or as it is. */
  datatype Written = InQuotes(text: string) | Plain(text: string)

  /** Only a word without white space that does not begin with a quote can be written as it is. */
  predicate Writable(w: Written) {
    w.Plain? ==> w.text != [] && w.text[0] != QUOTE && forall c :: c in w.text ==> !IsSpace(c)
  }

  function Form(w: Written): string {
    if w.InQuotes? then Quoted(w.text) else w.text
  }

  function Texts(ws: seq<Written>): seq<string> {
    if ws == [] then [] else [ws[0].text] + Texts(ws[1..])
  }

  /** Each word as written, with a gap before it, and a last gap. */
  function Joined(ws: seq<Written>, gaps: seq<string>): string
    requires |gaps| == |ws| + 1
  {
    if ws == [] then gaps[0] else gaps[0] + Form(ws[0]) + Joined(ws[1..], gaps[1..])
  }

  predicate Blank(g: string) {
    forall c :: c in g ==> IsSpace(c)
  }

  /** Gaps are white space, and only the first and the last may be empty. */
  predicate Separates(gaps: seq<string>) {
    forall k :: 0 <= k < |gaps| ==> Blank(gaps[k]) && (0 < k < |gaps| - 1 ==> gaps[k] != [])
  }

  /** What follows a token: the end, or white space. */
  predicate Follows(t: string) {
    t == [] || IsSpace(t[0])
  }

  lemma {:induction false} SkipGap(p: string, g: string, t: string)
    requires Blank(g) && (t == [] || !IsSpace(t[0]))
    ensures AfterSpaces(p + g + t, |p|) == |p| + |g|
    decreases |g|
  {
    var s := p + g + t;
    if g == [] {
      assert t != [] ==> s[|p|] == t[0];
    } else {
      assert s[|p|] == g[0] && g[0] in g;
      assert s == (p + [g[0]]) + g[1..] + t;
      SkipGap(p + [g[0]], g[1..], t);
    }
  }

  /** A quoted word ends at its closing quote, and its text is the word. */
  lemma {:induction false} QuotedWord(p: string, w: string, t: string)
    requires Follows(t)
    ensures var s, en := p + Doubled(w) + [QUOTE] + t, |p| + |Doubled(w)| + 1;
            QuotedEnd(s, |p|) == At(en) && Unquoted(s, |p|, en) == w
    decreases |w|
  {
    var d := Doubled(w);
    var s, en := p + d + [QUOTE] + t, |p| + |d| + 1;
    if w == [] {
      assert s[|p|] == QUOTE;
      assert t != [] ==> s[|p| + 1] == t[0];
    } else if w[0] == QUOTE {
      var p' := p + [QUOTE, QUOTE];
      assert s == p' + Doubled(w[1..]) + [QUOTE] + t;
      QuotedWord(p', w[1..], t);
      assert s[|p|] == QUOTE && s[|p| + 1] == QUOTE;
    } else {
      var p' := p + [w[0]];
      assert s == p' + Doubled(w[1..]) + [QUOTE] + t;
      QuotedWord(p', w[1..], t);
      assert s[|p|] == w[0];
    }
  }

  /** A quoted token without error is a word with its quotes doubled, a closing quote, and white space or the end. */
  lemma {:induction false} QuotedOnly(s: string, i: nat)
    requires i <= |s| && QuotedEnd(s, i).At?
    ensures var en := QuotedEnd(s, i).en; s[i..en] == Doubled(Unquoted(s, i, en)) + [QUOTE] && Follows(s[en..])
    decreases |s| - i
  {
    var en := QuotedEnd(s, i).en;
    if s[i] != QUOTE {
      QuotedOnly(s, i + 1);
      assert s[i..en] == [s[i]] + s[i + 1..en];
      assert Unquoted(s, i, en)[1..] == Unquoted(s, i + 1, en);
    } else if i + 1 < |s| && s[i + 1] == QUOTE && !IsSpace(QUOTE) {
      QuotedOnly(s, i + 2);
      assert s[i..en] == [QUOTE, QUOTE] + s[i + 2..en];
      assert Unquoted(s, i, en)[1..] == Unquoted(s, i + 2, en);
    }
  }

  /** A plain word ends where white space or the end follows. */
  lemma {:induction false} PlainWord(p: string, w: string, t: string)
    requires Follows(t) && forall c :: c in w ==> !IsSpace(c)
    ensures PlainEnd(p + w + t, |p|) == |p| + |w|
    decreases |w|
  {
    var s := p + w + t;
    if w == [] {
      assert t != [] ==> s[|p|] == t[0];
    } else {
      assert s[|p|] == w[0] && w[0] in w;
      assert s == (p + [w[0]]) + w[1..] + t;
      PlainWord(p + [w[0]], w[1..], t);
    }
  }

  /** A word as written is one token, with the word as its text. */
  lemma WrittenWord(p: string, w: Written, t: string)
    requires Writable(w) && Follows(t)
    ensures Form(w) != [] && !IsSpace(Form(w)[0])
    ensures var s, en := p + Form(w) + t, |p| + |Form(w)|;
            en <= |s| && TokenEnd(s, |p|) == At(en) && TokenText(s, |p|, en) == w.text
  {
    hide QuotedEnd, Unquoted, PlainEnd, Doubled;
    var s := p + Form(w) + t;
    if w.InQuotes? {
      assert s == (p + [QUOTE]) + Doubled(w.text) + [QUOTE] + t;
      assert s[|p|] == QUOTE;
      QuotedWord(p + [QUOTE], w.text, t);
    } else {
      assert s[|p|] == w.text[0] && w.text[0] in w.text;
      PlainWord(p, w.text, t);
    }
  }

  lemma JoinedFollows(ws: seq<Written>, gaps: seq<string>)
    requires |gaps| == |ws| + 1 && Separates(gaps) && (ws != [] ==> gaps[0] != [])
    ensures Follows(Joined(ws, gaps))
  {
    var g := gaps[0];
    assert Blank(g);
    if g != [] { assert g[0] in g && Joined(ws, gaps)[0] == g[0]; }
  }

  /** One token found, the rest of the text tokenized. */
  lemma TokensStep(s: string, i: nat, st: nat, en: nat, c: Control, rest: seq<string>)
    requires i <= |s| && AfterSpaces(s, i) == st < |s| && TokenEnd(s, st) == At(en) && st < en <= |s| &&
             Tokens(s, en, c) == (Continue, rest)
    ensures Tokens(s, i, c) == (Continue, [TokenText(s, st, en)] + rest)
  {
    hide AfterSpaces, TokenEnd, TokenText;
  }

  lemma JoinedFirst(w: Written, ws: seq<Written>, gaps: seq<string>)
    requires |gaps| == |ws| + 2
    ensures Joined([w] + ws, gaps) == gaps[0] + Form(w) + Joined(ws, gaps[1..])
  {
    hide Form;
    assert ([w] + ws)[1..] == ws;
  }

  /** The text of a list, seen from its first word. */
  lemma JoinedParts(p: string, w: Written, ws: seq<Written>, gaps: seq<string>)
    requires |gaps| == |ws| + 2
    ensures var s, g, t := p + Joined([w] + ws, gaps), gaps[0], Joined(ws, gaps[1..]);
            s == p + g + (Form(w) + t) && s == (p + g) + Form(w) + t && s == (p + g + Form(w)) + t
  {
    hide Form, Joined;
    JoinedFirst(w, ws, gaps);
  }

  lemma TailSeparates(gaps: seq<string>)
    requires |gaps| > 1 && Separates(gaps)
    ensures Blank(gaps[0]) && Separates(gaps[1..]) && (|gaps| > 2 ==> gaps[1] != [])
  {
    hide Blank;
    forall k | 0 <= k < |gaps| - 1 ensures Blank(gaps[1..][k]) && (0 < k < |gaps| - 2 ==> gaps[1..][k] != []) {
      assert gaps[1..][k] == gaps[k + 1];
    }
  }

  /**
   For any words without zeros, tokenizing the words set apart by white space, each
   quoted or, if it can be, written as it is, gives back the words, empty ones included.
   */
  lemma {:induction false} TokenizeUndoesQuote(p: string, ws: seq<Written>, gaps: seq<string>, c: Control)
    requires |gaps| == |ws| + 1 && Separates(gaps) && forall w :: w in ws ==> Writable(w)
    ensures Tokens(p + Joined(ws, gaps), |p|, c) == (Continue, Texts(ws))
    decreases |ws|
  {
    hide AfterSpaces, TokenEnd, TokenText, Blank, Form, Writable;
    var g, s := gaps[0], p + Joined(ws, gaps);
    if ws == [] {
      assert s == p + g + [];
      SkipGap(p, g, []);
    } else {
      var w, t := ws[0], Joined(ws[1..], gaps[1..]);
      assert ws == [w] + ws[1..];
      JoinedParts(p, w, ws[1..], gaps);
      TailSeparates(gaps);
      JoinedFollows(ws[1..], gaps[1..]);
      hide Joined, Separates, Tokens, Follows;
      WrittenWord(p + g, w, t);
      SkipGap(p, g, Form(w) + t);
      TokenizeUndoesQuote(p + g + Form(w), ws[1..], gaps[1..], c);
      TokensStep(s, |p|, |p| + |g|, |p + g + Form(w)|, c, Texts(ws[1..]));
    }
  }
}
