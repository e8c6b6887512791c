/**
 Masking of comments and strings in the gate policy source
 (scripts/greater-realm-connected-gate-mode.ts, maskCommentsAndStrings).
 */
module GateMask {
  import opened Wrappers

  datatype State = Code | LineComment | BlockComment | Single | Double | Template

  predicate IsNewline(c: char) { c == '\n' || c == '\r' }

  function QuoteOf(state: State): Option<char> {
    match state
    case Single => Some('\'')
    case Double => Some('"')
    case Template => Some('`')
    case _ => None
  }

  /** One round of the loop: what it adds to the mask, one character of output for each read, and the next state. */
  datatype Token = Token(out: string, next: State)

  function TokenAt(s: string, state: State): (token: Token)
    requires s != ""
    ensures 1 <= |token.out| <= 2 && |token.out| <= |s|
  {
    var current, next := s[0], if |s| > 1 then Some(s[1]) else None;
    if IsNewline(current) then Token([current], if state.LineComment? then Code else state)
    else match state
      case Code =>
        if current == '/' && next == Some('/') then Token("  ", LineComment)
        else if current == '/' && next == Some('*') then Token("  ", BlockComment)
        else if current == '\'' then Token(" ", Single)
        else if current == '"' then Token(" ", Double)
        else if current == '`' then Token(" ", Template)
        else Token([current], Code)
      case LineComment => Token(" ", LineComment)
      case BlockComment =>
        if current == '*' && next == Some('/') then Token("  ", Code) else Token(" ", BlockComment)
      case _ =>
        if current == '\\' && next.Some? then Token([' ', if IsNewline(next.value) then next.value else ' '], state)
        else if Some(current) == QuoteOf(state) then Token(" ", Code)
        else Token(" ", state)
  }

  datatype Scanned = Scanned(masked: string, state: State)

  function Scan(s: string, state: State): (scanned: Scanned)
    ensures |scanned.masked| == |s|
  {
    if s == "" then Scanned("", state) else
    var token := TokenAt(s, state);
    var rest := Scan(s[|token.out|..], token.next);
    Scanned(token.out + rest.masked, rest.state)
  }

  function Mask(source: string): (masked: Option<string>)
    ensures masked.Some? ==> |masked.value| == |source|
  {
    var scanned := Scan(source, Code);
    if scanned.state.Code? || scanned.state.LineComment? then Some(scanned.masked) else None
  }

  lemma ScanUnfolds(s: string, state: State)
    requires s != ""
    ensures var token := TokenAt(s, state);
            var rest := Scan(s[|token.out|..], token.next);
            Scan(s, state) == Scanned(token.out + rest.masked, rest.state)
  {
  }

  lemma ScanEmpty(state: State)
    ensures Scan("", state) == Scanned("", state)
  {
  }

  /** `maskCommentsAndStrings` */
  method MaskCommentsAndStrings(source: string) returns (result: Option<string>)
    ensures result == Mask(source)
  {
    hide Scan;
    var state, masked, index := Code, "", 0;
    assert source[0..] == source;
    while index < |source|
      invariant 0 <= index <= |source|
      invariant masked + Scan(source[index..], state).masked == Scan(source, Code).masked
      invariant Scan(source[index..], state).state == Scan(source, Code).state
      decreases |source| - index
    {
      ghost var was, from, before := state, index, masked;
      ghost var rest := source[index..];
      assert rest[0] == source[index] && (|rest| > 1 ==> rest[1] == source[index + 1]);
      var current, next := source[index], if index + 1 < |source| then Some(source[index + 1]) else None;
      if current == '\n' || current == '\r' {
        masked := masked + [current];
        if state == LineComment { state := Code; }
      } else if state == Code {
        if current == '/' && next == Some('/') { masked, index, state := masked + "  ", index + 1, LineComment; }
        else if current == '/' && next == Some('*') { masked, index, state := masked + "  ", index + 1, BlockComment; }
        else if current == '\'' { masked, state := masked + " ", Single; }
        else if current == '"' { masked, state := masked + " ", Double; }
        else if current == '`' { masked, state := masked + " ", Template; }
        else { masked := masked + [current]; }
      } else {
        masked := masked + " ";
        if state == BlockComment && current == '*' && next == Some('/') {
          masked, index, state := masked + " ", index + 1, Code;
        } else if (state == Single || state == Double || state == Template) && current == '\\' && next.Some? {
          masked := masked + if next.value == '\n' || next.value == '\r' then [next.value] else " ";
          index := index + 1;
        } else if (state == Single && current == '\'') || (state == Double && current == '"') || (state == Template && current == '`') {
          state := Code;
        }
      }
      index := index + 1;
      TokenTaken(source, from, was, before, masked, state, index);
    }
    ScanEmpty(state);
    assert source[index..] == "" && masked + "" == masked;
    if state.BlockComment? || state.Single? || state.Double? || state.Template? { return None; }
    result := Some(masked);
  }

  /** One round of the loop is one token of the mask. */
  lemma TokenTaken(source: string, from: nat, was: State, before: string, masked: string, state: State, index: nat)
    requires from < |source|
    requires var token := TokenAt(source[from..], was);
             masked == before + token.out && state == token.next && index == from + |token.out|
    ensures index <= |source|
    ensures before + Scan(source[from..], was).masked == masked + Scan(source[index..], state).masked
    ensures Scan(source[from..], was).state == Scan(source[index..], state).state
  {
    hide TokenAt, Scan;
    var token := TokenAt(source[from..], was);
    ScanUnfolds(source[from..], was);
    assert source[from..][|token.out|..] == source[index..];
    assert before + (token.out + Scan(source[index..], state).masked) == (before + token.out) + Scan(source[index..], state).masked;
  }

  // ------------------------------------------------------------ what is blanked, by grammar

  function Blank(text: string): (blank: string)
    ensures |blank| == |text|
  {
    seq(|text|, i requires 0 <= i < |text| => if IsNewline(text[i]) then text[i] else ' ')
  }

  /** The inside of a literal: characters other than its quote, and escapes, which take the next character with them. */
  ghost predicate Inside(text: string, quote: char) {
    || text == ""
    || (text[0] != quote && text[0] != '\\' && Inside(text[1..], quote))
    || (text[0] == '\\' && |text| > 1 && Inside(text[2..], quote))
  }

  lemma BlankSplits(x: string, y: string)
    ensures Blank(x + y) == Blank(x) + Blank(y)
  {
  }

  /** From inside a literal, everything up to its closing quote is blanked, and code follows. */
  lemma {:induction false} LiteralCloses(text: string, rest: string, state: State)
    requires QuoteOf(state).Some? && Inside(text, QuoteOf(state).value)
    ensures Scan(text + [QuoteOf(state).value] + rest, state)
         == Scanned(Blank(text) + " " + Scan(rest, Code).masked, Scan(rest, Code).state)
  {
    hide Scan;
    var quote := QuoteOf(state).value;
    var whole, after := text + [quote] + rest, Scan(rest, Code);
    ScanUnfolds(whole, state);
    if text == "" {
      assert whole[0] == quote && whole[1..] == rest;
      assert Blank("") + " " + after.masked == " " + after.masked;
    } else {
      var n := if text[0] == '\\' then 2 else 1;
      assert whole[..n] == text[..n] && whole[n..] == text[n..] + [quote] + rest;
      assert TokenAt(whole, state) == Token(Blank(text[..n]), state);
      LiteralCloses(text[n..], rest, state);
      assert text[..n] + text[n..] == text;
      BlankSplits(text[..n], text[n..]);
      assert Blank(text[..n]) + (Blank(text[n..]) + " " + after.masked) == Blank(text) + " " + after.masked;
    }
  }

  /** A whole literal, quotes and escapes included, becomes spaces, and what follows is masked as code. */
  lemma LiteralIsBlanked(text: string, rest: string, state: State)
    requires QuoteOf(state).Some? && Inside(text, QuoteOf(state).value)
    ensures var quote := [QuoteOf(state).value];
            Scan(quote + text + quote + rest, Code)
            == Scanned(" " + Blank(text) + " " + Scan(rest, Code).masked, Scan(rest, Code).state)
  {
    hide Scan, Blank, Inside;
    var quote, after := [QuoteOf(state).value], Scan(rest, Code);
    var whole := quote + text + quote + rest;
    ScanUnfolds(whole, Code);
    assert TokenAt(whole, Code) == Token(" ", state);
    hide TokenAt;
    assert whole[1..] == text + quote + rest;
    LiteralCloses(text, rest, state);
    assert " " + (Blank(text) + " " + after.masked) == " " + Blank(text) + " " + after.masked;
  }

  predicate NoNewline(text: string) {
    forall i | 0 <= i < |text| :: !IsNewline(text[i])
  }

  lemma {:induction false} LineCommentEnds(text: string, newline: char, rest: string)
    requires NoNewline(text) && IsNewline(newline)
    ensures Scan(text + [newline] + rest, LineComment)
         == Scanned(Blank(text) + [newline] + Scan(rest, Code).masked, Scan(rest, Code).state)
  {
    hide Scan;
    var whole, after := text + [newline] + rest, Scan(rest, Code);
    ScanUnfolds(whole, LineComment);
    if text == "" {
      assert whole[0] == newline && whole[1..] == rest;
      assert Blank("") + [newline] + after.masked == [newline] + after.masked;
    } else {
      assert whole[1..] == text[1..] + [newline] + rest;
      assert TokenAt(whole, LineComment) == Token(" ", LineComment);
      LineCommentEnds(text[1..], newline, rest);
      assert [text[0]] + text[1..] == text;
      BlankSplits([text[0]], text[1..]);
      assert " " + (Blank(text[1..]) + [newline] + after.masked) == Blank(text) + [newline] + after.masked;
    }
  }

  /** A line comment is blanked up to the end of its line. */
  lemma LineCommentIsBlanked(text: string, newline: char, rest: string)
    requires NoNewline(text) && IsNewline(newline)
    ensures Scan("//" + text + [newline] + rest, Code)
         == Scanned("  " + Blank(text) + [newline] + Scan(rest, Code).masked, Scan(rest, Code).state)
  {
    hide Scan;
    var whole, after := "//" + text + [newline] + rest, Scan(rest, Code);
    ScanUnfolds(whole, Code);
    assert whole[2..] == text + [newline] + rest;
    LineCommentEnds(text, newline, rest);
    assert "  " + (Blank(text) + [newline] + after.masked) == "  " + Blank(text) + [newline] + after.masked;
  }

  /** `text` is the inside of a block comment: what closes it comes right after, and not before. */
  predicate InsideBlock(text: string) {
    forall i | 0 <= i < |text| :: !((text + "*/")[i] == '*' && (text + "*/")[i + 1] == '/')
  }

  lemma {:induction false} BlockCommentCloses(text: string, rest: string)
    requires InsideBlock(text)
    ensures Scan(text + "*/" + rest, BlockComment) == Scanned(Blank(text) + "  " + Scan(rest, Code).masked, Scan(rest, Code).state)
  {
    hide Scan;
    var whole, after := text + "*/" + rest, Scan(rest, Code);
    ScanUnfolds(whole, BlockComment);
    if text == "" {
      assert whole[0] == '*' && whole[1] == '/' && whole[2..] == rest;
      assert Blank("") + "  " + after.masked == "  " + after.masked;
    } else {
      assert whole[1..] == text[1..] + "*/" + rest;
      assert (text + "*/")[0] == whole[0] && (text + "*/")[1] == whole[1];
      assert TokenAt(whole, BlockComment) == Token(Blank([text[0]]), BlockComment);
      forall i | 0 <= i < |text| - 1 ensures !((text[1..] + "*/")[i] == '*' && (text[1..] + "*/")[i + 1] == '/') {
        assert (text[1..] + "*/")[i] == (text + "*/")[i + 1] && (text[1..] + "*/")[i + 1] == (text + "*/")[i + 2];
      }
      BlockCommentCloses(text[1..], rest);
      assert [text[0]] + text[1..] == text;
      BlankSplits([text[0]], text[1..]);
      assert Blank([text[0]]) + (Blank(text[1..]) + "  " + after.masked) == Blank(text) + "  " + after.masked;
    }
  }

  /** A block comment is blanked, but for its newlines. */
  lemma BlockCommentIsBlanked(text: string, rest: string)
    requires InsideBlock(text)
    ensures Scan("/*" + text + "*/" + rest, Code) == Scanned("  " + Blank(text) + "  " + Scan(rest, Code).masked, Scan(rest, Code).state)
  {
    hide Scan;
    var whole, after := "/*" + text + "*/" + rest, Scan(rest, Code);
    ScanUnfolds(whole, Code);
    assert whole[2..] == text + "*/" + rest;
    BlockCommentCloses(text, rest);
    assert "  " + (Blank(text) + "  " + after.masked) == "  " + Blank(text) + "  " + after.masked;
  }

  // ---------------------------------------------------------------------- what it keeps

  lemma TokenKeeps(s: string, state: State, i: nat)
    requires s != "" && i < |TokenAt(s, state).out|
    ensures var c := TokenAt(s, state).out[i];
            (c == s[i] || c == ' ') && (IsNewline(s[i]) <==> IsNewline(c))
  {
  }

  /** Length and newline positions stay; a character is kept or becomes a space. */
  lemma {:induction false} MaskKeeps(s: string, state: State, i: nat)
    requires i < |s|
    ensures var c := Scan(s, state).masked[i];
            (c == s[i] || c == ' ') && (IsNewline(s[i]) <==> IsNewline(c))
  {
    hide TokenAt;
    var token := TokenAt(s, state);
    var n := |token.out|;
    if i < n {
      TokenKeeps(s, state, i);
    } else {
      MaskKeeps(s[n..], token.next, i - n);
      assert s[n..][i - n] == s[i];
    }
  }

  predicate Opens(c: char) { c == '\'' || c == '"' || c == '`' }

  /** Text in which nothing starts a comment or a string. */
  predicate Plain(s: string) {
    && (forall i | 0 <= i < |s| :: !Opens(s[i]))
    && (forall i | 0 <= i < |s| - 1 :: s[i] == '/' ==> s[i + 1] != '/' && s[i + 1] != '*')
  }

  lemma {:induction false} PlainStays(s: string)
    requires Plain(s)
    ensures Scan(s, Code) == Scanned(s, Code)
  {
    if s != "" {
      PlainStays(s[1..]);
      assert TokenAt(s, Code) == Token([s[0]], Code);
      hide TokenAt;
      assert s == [s[0]] + s[1..];
    }
  }

  /** The mask is plain, whatever was masked. */
  lemma {:induction false} ScanIsPlain(s: string, state: State)
    ensures Plain(Scan(s, state).masked)
    ensures s != "" && Scan(s, state).masked[0] == '/' ==>
              state.Code? && (|s| > 1 ==> s[1] != '/' && s[1] != '*')
  {
    if s != "" {
      var token := TokenAt(s, state);
      var n := |token.out|;
      var rest := Scan(s[n..], token.next);
      ScanIsPlain(s[n..], token.next);
      TokenIsPlain(s, state);
      var masked := Scan(s, state).masked;
      assert masked == token.out + rest.masked;
      if n < |s| && token.out[n - 1] == '/' {
        MaskKeeps(s[n..], token.next, 0);
      }
    }
  }

  lemma TokenIsPlain(s: string, state: State)
    requires s != ""
    ensures var out := TokenAt(s, state).out;
            && (forall i | 0 <= i < |out| :: !Opens(out[i]) && (out[i] == '/' ==> |out| == 1 && state.Code?))
            && (out[0] == '/' && |s| > 1 ==> s[1] != '/' && s[1] != '*')
  {
  }

  /** Masking again changes nothing. */
  lemma MaskIdempotent(source: string)
    requires Mask(source).Some?
    ensures Mask(Mask(source).value) == Mask(source)
  {
    ScanIsPlain(source, Code);
    PlainStays(Mask(source).value);
  }

  // ----------------------------------------------------------------- masking by pieces

  predicate IsTerminator(c: char) { IsNewline(c) || c == '\U{2028}' || c == '\U{2029}' }

  /** Nothing that follows can be part of the last line of `s`. */
  predicate EndsLine(s: string) { s == "" || IsTerminator(s[|s| - 1]) }
  predicate StartsLine(s: string) { s == "" || IsTerminator(s[0]) }

  lemma TokenIgnoresRest(s: string, rest: string, state: State)
    requires s != "" && EndsLine(s)
    ensures TokenAt(s + rest, state) == TokenAt(s, state)
  {
  }

  /** Text that ends a line is masked on its own; the rest follows in the state it leaves. */
  lemma {:induction false} ScanSplits(s: string, rest: string, state: State)
    requires EndsLine(s)
    ensures var first := Scan(s, state);
            var second := Scan(rest, first.state);
            Scan(s + rest, state) == Scanned(first.masked + second.masked, second.state)
  {
    hide TokenAt;
    if s == "" {
      assert s + rest == rest;
    } else {
      var token := TokenAt(s, state);
      var n := |token.out|;
      TokenIgnoresRest(s, rest, state);
      ScanSplits(s[n..], rest, token.next);
      assert (s + rest)[n..] == s[n..] + rest;
      var first := Scan(s[n..], token.next);
      assert token.out + (first.masked + Scan(rest, first.state).masked)
          == (token.out + first.masked) + Scan(rest, first.state).masked;
    }
  }

  lemma TokenEndKept(s: string, state: State)
    requires s != "" && TokenAt(s, state).next.Code? && |TokenAt(s, state).out| == |s| && IsTerminator(s[|s| - 1])
    ensures TokenAt(s, state).out[|s| - 1] == s[|s| - 1]
  {
  }

  /** A line that ends in code keeps its terminator. */
  lemma {:induction false} CodeKeepsTerminator(s: string, state: State)
    requires EndsLine(s) && Scan(s, state).state.Code?
    ensures EndsLine(Scan(s, state).masked)
  {
    hide TokenAt;
    if s != "" {
      var token := TokenAt(s, state);
      var n := |token.out|;
      if n == |s| {
        TokenEndKept(s, state);
        assert Scan(s[n..], token.next) == Scanned("", token.next);
      } else {
        CodeKeepsTerminator(s[n..], token.next);
      }
    }
  }

  predicate Delimiter(c: char) { c == '/' || Opens(c) }

  /** A character that is kept, and is neither space nor newline. */
  predicate Kept(s: string, state: State, i: nat)
    requires i < |s|
  {
    Scan(s, state).masked[i] != ' ' && !IsNewline(s[i])
  }

  predicate Blanked(s: string, state: State, i: nat)
    requires i < |s|
  {
    Scan(s, state).masked[i] == ' ' && s[i] != ' '
  }

  lemma FirstKeptIsCode(s: string, state: State)
    requires s != "" && Kept(s, state, 0)
    ensures state.Code? && TokenAt(s, state) == Token([s[0]], Code)
  {
  }

  lemma FirstBlankedInCode(s: string)
    requires s != "" && Blanked(s, Code, 0)
    ensures Delimiter(s[0])
  {
  }

  /** What lies next to kept text and was blanked is a delimiter. */
  lemma {:induction false} BlankedBesideKept(s: string, state: State, i: nat)
    requires i + 1 < |s|
    ensures Kept(s, state, i) && Blanked(s, state, i + 1) ==> Delimiter(s[i + 1])
    ensures Blanked(s, state, i) && Kept(s, state, i + 1) ==> Delimiter(s[i])
  {
    var token := TokenAt(s, state);
    var n := |token.out|;
    var rest := s[n..];
    if i >= n {
      BlankedBesideKept(rest, token.next, i - n);
      assert rest[i - n] == s[i] && rest[i - n + 1] == s[i + 1];
      assert Scan(s, state).masked[i] == Scan(rest, token.next).masked[i - n];
      assert Scan(s, state).masked[i + 1] == Scan(rest, token.next).masked[i + 1 - n];
    } else if i == n - 1 {
      assert rest[0] == s[i + 1] && Scan(s, state).masked[i + 1] == Scan(rest, token.next).masked[0];
      if Kept(rest, token.next, 0) { FirstKeptIsCode(rest, token.next); }
      if n == 1 && Kept(s, state, 0) {
        FirstKeptIsCode(s, state);
        if Blanked(rest, Code, 0) { FirstBlankedInCode(rest); }
      }
    }
  }

  /** Where a plain character is kept, the scan of what comes before it ended in code. */
  lemma KeptMeansCode(before: string, rest: string)
    requires EndsLine(before) && rest != "" && Scan(before + rest, Code).masked[|before|] != ' ' && !IsNewline(rest[0])
    ensures Scan(before, Code).state.Code?
  {
    ScanSplits(before, rest, Code);
    var state := Scan(before, Code).state;
    assert Scan(rest, state).masked[0] == Scan(before + rest, Code).masked[|before|];
    FirstKeptIsCode(rest, state);
  }
}
