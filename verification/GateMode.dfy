/**
 The two mutation gates of the cutover policy source: parsing them exactly, and rewriting a
 disposable copy to a target mode (scripts/greater-realm-connected-gate-mode.ts).
 */
module GateMode {
  import opened Wrappers
  import opened GateMask
  import opened GateText

  datatype Gate = Import | Activation

  function Other(g: Gate): Gate { if g.Import? then Activation else Import }

  const STEM: string := "GREATER_REALM_V17_"
  const REST: string := "_MUTATIONS_ALLOWED"

  function Kind(g: Gate): string { if g.Import? then "IMPORT" else "ACTIVATION" }

  function Name(g: Gate): string {
    STEM + Kind(g) + REST
  }

  const LEAD: string := "export const "

  function Tail(allowed: bool): string { if allowed then " = true;" else " = false;" }

  function Declaration(g: Gate, allowed: bool): string {
    LEAD + Name(g) + Tail(allowed)
  }

  const MARKER: string := "warpkeep.connected-gate-mode.marker."

  function MarkerLine(g: Gate): string {
    MARKER + if g.Import? then "import" else "activation"
  }

  datatype Gates = Gates(importAllowed: bool, activationAllowed: bool)

  function Value(gates: Gates, g: Gate): bool { if g.Import? then gates.importAllowed else gates.activationAllowed }

  // ----------------------------------------------------------------------------- parsing

  /** `parseExactGate` */
  function ParseGate(source: string, code: string, g: Gate): Option<bool> {
    var falseCount := Count(source, WholeLine(Declaration(g, false)));
    var trueCount := Count(source, WholeLine(Declaration(g, true)));
    var declared := Declaration(g, trueCount == 1);
    if Count(source, WholeWord(Name(g))) != 1 || falseCount + trueCount != 1
       || Count(code, WholeLine(declared)) != 1 || !TopLevel(code, declared)
    then None else Some(trueCount == 1)
  }

  /** `parseExactGreaterRealmConnectedGateMode` */
  function ParseMode(source: string): Option<Gates> {
    if Count(source, Anywhere(MARKER)) > 0 then None else
    var code := Mask(source);
    if code.None? then None else
    var importGate, activationGate := ParseGate(source, code.value, Import), ParseGate(source, code.value, Activation);
    if importGate.None? || activationGate.None? then None else Some(Gates(importGate.value, activationGate.value))
  }

  /** `parseGreaterRealmConnectedProductionGateMode` */
  function ParseProduction(source: string): Option<Gates> {
    var parsed := ParseMode(source);
    if parsed == Some(Gates(true, true)) then None else parsed
  }

  // ----------------------------------------------------------------------- normalization

  datatype Normalization = Normalized(source: string) | NotProduction | Unparseable | ChangedUnexpectedBytes

  function Rewrite(source: string, from: Gates, to: Gates): string {
    ReplaceFirst(ReplaceFirst(source, Declaration(Import, from.importAllowed), Declaration(Import, to.importAllowed)),
                 Declaration(Activation, from.activationAllowed), Declaration(Activation, to.activationAllowed))
  }

  /** `gateNeutralSource` */
  function Neutral(source: string, gates: Gates): string {
    ReplaceFirst(ReplaceFirst(source, Declaration(Import, gates.importAllowed), MarkerLine(Import)),
                 Declaration(Activation, gates.activationAllowed), MarkerLine(Activation))
  }

  /** `normalizeGreaterRealmConnectedDisposableGateMode`; the disposable modes open the import gate. */
  function Normalize(source: string, activation: bool): Normalization {
    var initial, target := ParseProduction(source), Gates(true, activation);
    if initial.None? then NotProduction else
    var normalized := Rewrite(source, initial.value, target);
    var parsed := ParseMode(normalized);
    if parsed.None? then Unparseable
    else if parsed.value != target || Neutral(source, initial.value) != Neutral(normalized, target) then ChangedUnexpectedBytes
    else Normalized(normalized)
  }

  // -------------------------------------------------------------- facts about the literals

  predicate Inert(text: string) {
    forall i | 0 <= i < |text| :: !Opens(text[i]) && text[i] != '/' && text[i] != '{' && text[i] != '}' && !IsTerminator(text[i])
  }

  predicate AllWord(text: string) {
    forall i | 0 <= i < |text| :: IsWord(text[i])
  }

  lemma PartsAreWords(g: Gate)
    ensures AllWord(STEM) && AllWord(Kind(g)) && AllWord(REST)
    ensures |STEM| == 18 && |REST| == 18 && |Kind(g)| == (if g.Import? then 6 else 10)
    ensures STEM[0] == 'G' && Kind(g)[0] == (if g.Import? then 'I' else 'A')
    ensures forall i | 0 < i < |STEM| :: STEM[i] != 'G'
  {
    assert AllWord(Kind(Import)) && AllWord(Kind(Activation));
  }

  /** What the proofs need to know of the letters. */
  lemma NameLetters(g: Gate)
    ensures |Name(g)| == (if g.Import? then 42 else 46)
    ensures Name(g)[0] == 'G' && forall i | 0 < i < 18 :: Name(g)[i] != 'G'
    ensures Name(g)[18] == (if g.Import? then 'I' else 'A')
    ensures AllWord(Name(g))
  {
    hide STEM, REST, Kind;
    PartsAreWords(g);
  }

  lemma WordsAreInert(text: string)
    requires AllWord(text)
    ensures Inert(text)
  {
  }

  lemma LeadIsInert()
    ensures Inert(LEAD) && |LEAD| == 13 && LEAD[0] == 'e' && LEAD[12] == ' ' && forall i | 0 <= i < |LEAD| :: LEAD[i] != 'G'
  {
  }

  lemma TailIsInert(allowed: bool)
    ensures Inert(Tail(allowed)) && Tail(allowed)[0] == ' ' && |Tail(allowed)| == (if allowed then 8 else 9)
  {
  }

  lemma DeclarationsAreInert(g: Gate, allowed: bool)
    ensures Inert(Declaration(g, allowed)) && OneLine(Declaration(g, allowed)) && OneLine(Name(g))
    ensures |Declaration(g, allowed)| == 13 + |Name(g)| + |Tail(allowed)|
  {
    hide Name, Tail, LEAD, Inert;
    NameLetters(g);
    WordsAreInert(Name(g));
    LeadIsInert();
    TailIsInert(allowed);
    InertJoins(LEAD, Name(g));
    InertJoins(LEAD + Name(g), Tail(allowed));
    InertIsOneLine(Declaration(g, allowed));
    InertIsOneLine(Name(g));
  }

  lemma InertJoins(x: string, y: string)
    requires Inert(x) && Inert(y)
    ensures Inert(x + y)
  {
  }

  lemma InertIsOneLine(text: string)
    requires Inert(text) && text != ""
    ensures OneLine(text)
  {
  }

  lemma NameInDeclaration(g: Gate, allowed: bool)
    ensures var d := Declaration(g, allowed);
            && Occurs(d, 13, Name(g)) && d[0] == 'e' && d[12] == ' ' && 13 + |Name(g)| < |d| && d[13 + |Name(g)|] == ' '
  {
    hide Name, Tail, LEAD;
    LeadIsInert();
    TailIsInert(allowed);
    var d := Declaration(g, allowed);
    assert d[13..13 + |Name(g)|] == Name(g);
    assert d[13 + |Name(g)|] == Tail(allowed)[0];
  }

  lemma LetterAt(g: Gate, allowed: bool, i: nat)
    ensures |Declaration(g, allowed)| == |LEAD| + |Name(g)| + |Tail(allowed)|
    ensures i < |LEAD| ==> Declaration(g, allowed)[i] == LEAD[i]
    ensures |LEAD| <= i < |LEAD| + |Name(g)| ==> Declaration(g, allowed)[i] == Name(g)[i - |LEAD|]
  {
    hide Name, Tail, LEAD;
  }

  /** A gate's name occurs in its own declarations, once. */
  lemma NameOccursOnce(g: Gate, h: Gate, allowed: bool, i: nat)
    requires Occurs(Declaration(g, allowed), i, Name(h))
    ensures g == h && i == 13
  {
    hide Name, Tail, LEAD;
    LeadIsInert();
    TailIsInert(allowed);
    NameLetters(g);
    NameLetters(h);
    var d := Declaration(g, allowed);
    LetterAt(g, allowed, i);
    LetterAt(g, allowed, 31);
    var slice := d[i..i + |Name(h)|];
    assert slice[0] == d[i] && slice[18] == d[i + 18];
  }

  lemma DeclarationCounts(g: Gate, h: Gate, allowed: bool)
    ensures Count(Declaration(g, allowed), WholeWord(Name(h))) == if g == h then 1 else 0
  {
    hide Declaration, Name, IsWord;
    var d, m := Declaration(g, allowed), WholeWord(Name(h));
    forall i | 0 <= i < |d| && (g != h || i != 13) ensures !Matches(d, i, m) {
      if Occurs(d, i, Name(h)) { NameOccursOnce(g, h, allowed, i); }
    }
    if g == h {
      NameInDeclaration(g, allowed);
      SpaceIsNoWord();
      OnlyMatchCounts(d, m, |d|, 13);
    } else {
      NoMatchNoCount(d, m, |d|);
    }
  }

  lemma SpaceIsNoWord()
    ensures !IsWord(' ')
  {
  }

  // -------------------------------------------------------------- names in masked text

  /** A name found whole in the mask is there in the source, whole. */
  lemma MaskedNameIsName(s: string, state: State, g: Gate, i: nat)
    requires Matches(Scan(s, state).masked, i, WholeWord(Name(g)))
    ensures Matches(s, i, WholeWord(Name(g)))
  {
    hide Scan, Name;
    NameLetters(g);
    var masked, name := Scan(s, state).masked, Name(g);
    forall k | i <= k < i + |name| ensures s[k] == masked[k] && Kept(s, state, k) {
      MaskKeeps(s, state, k);
      assert masked[k] == masked[i..i + |name|][k - i] == name[k - i];
      assert IsWord(name[k - i]);
    }
    assert s[i..i + |name|] == masked[i..i + |name|];
    assert Kept(s, state, i) && Kept(s, state, i + |name| - 1);
    if i > 0 {
      MaskKeeps(s, state, i - 1);
      BlankedBesideKept(s, state, i - 1);
    }
    if i + |name| < |s| {
      MaskKeeps(s, state, i + |name|);
      BlankedBesideKept(s, state, i + |name| - 1);
    }
  }

  lemma NoNameInMask(s: string, state: State, g: Gate)
    requires Count(s, WholeWord(Name(g))) == 0
    ensures Count(Scan(s, state).masked, WholeWord(Name(g))) == 0
  {
    hide Scan, Name, Matches;
    var masked, m := Scan(s, state).masked, WholeWord(Name(g));
    forall i | 0 <= i < |masked| ensures !Matches(masked, i, m) {
      NoneCounted(s, m, |s|, i);
      if Matches(masked, i, m) { MaskedNameIsName(s, state, g, i); }
    }
    NoMatchNoCount(masked, m, |masked|);
  }

  lemma SliceOfSlice(s: string, i: nat, n: nat, j: nat, k: nat)
    requires i + n <= |s| && j + k <= n
    ensures s[i..i + n][j..j + k] == s[i + j..i + j + k]
  {
    var x, y := s[i..i + n][j..j + k], s[i + j..i + j + k];
    assert |x| == |y| == k;
    forall p | 0 <= p < k ensures x[p] == y[p] {
      assert x[p] == s[i..i + n][j + p] == s[i + j + p];
    }
  }

  lemma WordIsThere(s: string, i: nat, text: string)
    requires Occurs(s, i, text) && i > 0 && !IsWord(s[i - 1]) && i + |text| < |s| && !IsWord(s[i + |text|])
    ensures Matches(s, i, WholeWord(text))
  {
    assert Matches(s, i, WholeWord(text));
  }

  /** Where a declaration occurs, its name occurs whole. */
  lemma DeclarationHoldsName(s: string, g: Gate, allowed: bool, i: nat)
    requires Occurs(s, i, Declaration(g, allowed))
    ensures Matches(s, i + 13, WholeWord(Name(g)))
  {
    hide Declaration, Name, IsWord;
    NameInDeclaration(g, allowed);
    SpaceIsNoWord();
    var d := Declaration(g, allowed);
    var slice := s[i..i + |d|];
    SliceOfSlice(s, i, |d|, 13, |Name(g)|);
    assert slice[12] == s[i + 12] && slice[13 + |Name(g)|] == s[i + 13 + |Name(g)|];
    WordIsThere(s, i + 13, Name(g));
  }

  lemma NoNameNoDeclaration(s: string, g: Gate, allowed: bool)
    requires Count(s, WholeWord(Name(g))) == 0
    ensures Count(s, WholeLine(Declaration(g, allowed))) == 0
  {
    hide Declaration, Name;
    var m := WholeLine(Declaration(g, allowed));
    DeclarationsAreInert(g, allowed);
    forall i | 0 <= i < |s| ensures !Matches(s, i, m) {
      if Occurs(s, i, Declaration(g, allowed)) {
        DeclarationHoldsName(s, g, allowed, i);
        NoneCounted(s, WholeWord(Name(g)), |s|, i + 13);
      }
    }
    NoMatchNoCount(s, m, |s|);
  }

  // --------------------------------------------------------------------- one declaration

  /** Text around the line of gate `g`: code at top level, and nowhere else its name. */
  predicate Frames(a: string, b: string, g: Gate) {
    && EndsLine(a) && StartsLine(b)
    && Scan(a, Code).state.Code? && Depth(Scan(a, Code).masked, 0) == Some(0)
    && Count(a, WholeWord(Name(g))) == 0 && Count(b, WholeWord(Name(g))) == 0
  }

  lemma InertToken(text: string, rest: string)
    requires Inert(text) && text != ""
    ensures TokenAt(text + rest, Code) == Token([text[0]], Code)
  {
  }

  lemma {:induction false} InertPrefix(text: string, rest: string)
    requires Inert(text)
    ensures Scan(text + rest, Code) == Scanned(text + Scan(rest, Code).masked, Scan(rest, Code).state)
  {
    hide Scan, TokenAt;
    var after := Scan(rest, Code).masked;
    if text == "" {
      assert text + rest == rest && text + after == after;
    } else {
      var whole := text + rest;
      InertPrefix(text[1..], rest);
      InertToken(text, rest);
      ScanUnfolds(whole, Code);
      assert whole[1..] == text[1..] + rest;
      assert [text[0]] + (text[1..] + after) == text + after;
    }
  }

  /** An inert line in code is masked as itself. */
  lemma LineIsKept(a: string, line: string, b: string)
    requires EndsLine(a) && Scan(a, Code).state.Code? && Inert(line)
    ensures Scan(a + line + b, Code)
         == Scanned(Scan(a, Code).masked + line + Scan(b, Code).masked, Scan(b, Code).state)
  {
    hide Scan, Inert, EndsLine;
    assert a + line + b == a + (line + b);
    ScanSplits(a, line + b, Code);
    InertPrefix(line, b);
    assert forall x: string, y: string :: x + (line + y) == x + line + y;
  }

  /** In framed text the declaration occurs once, as the line it was put in. */
  lemma DeclarationOnlyThere(a: string, b: string, g: Gate, allowed: bool, i: nat)
    requires EndsLine(a) && StartsLine(b)
    requires Count(a, WholeWord(Name(g))) == 0 && Count(b, WholeWord(Name(g))) == 0
    requires Occurs(a + Declaration(g, allowed) + b, i, Declaration(g, allowed))
    ensures i == |a|
  {
    hide Declaration, Name, Matches;
    var d := Declaration(g, allowed);
    var s, m := a + d + b, WholeWord(Name(g));
    DeclarationsAreInert(g, allowed);
    DeclarationCounts(g, g, allowed);
    CountAround(a, d, b, m);
    assert s[|a|..|a| + |d|] == d;
    DeclarationHoldsName(s, g, allowed, i);
    DeclarationHoldsName(s, g, allowed, |a|);
    OneCounted(s, m, |s|, i + 13, |a| + 13);
  }

  lemma FirstIsThere(s: string, text: string, at: nat)
    requires Occurs(s, at, text) && forall i | 0 <= i && Occurs(s, i, text) :: i == at
    ensures IndexOf(s, text) == Some(at)
  {
  }

  /** Replacing the first occurrence replaces that line. */
  lemma ReplacesLine(a: string, b: string, g: Gate, allowed: bool, instead: string)
    requires EndsLine(a) && StartsLine(b)
    requires Count(a, WholeWord(Name(g))) == 0 && Count(b, WholeWord(Name(g))) == 0
    ensures ReplaceFirst(a + Declaration(g, allowed) + b, Declaration(g, allowed), instead) == a + instead + b
  {
    hide Declaration, Name, IndexOf, EndsLine, StartsLine;
    var d := Declaration(g, allowed);
    var s := a + d + b;
    assert s[|a|..|a| + |d|] == d;
    forall i | 0 <= i && Occurs(s, i, d) ensures i == |a| {
      DeclarationOnlyThere(a, b, g, allowed, i);
    }
    FirstIsThere(s, d, |a|);
    assert s[..|a|] == a && s[|a| + |d|..] == b;
  }

  /** The mask of framed text ends like the text after the line does. */
  predicate Terminates(b: string) {
    Scan(b, Code).state.Code? || Scan(b, Code).state.LineComment?
  }

  lemma MaskOfFramed(a: string, b: string, g: Gate, allowed: bool)
    requires EndsLine(a) && Scan(a, Code).state.Code? && Terminates(b)
    ensures Mask(a + Declaration(g, allowed) + b)
         == Some(Scan(a, Code).masked + Declaration(g, allowed) + Scan(b, Code).masked)
  {
    hide Declaration;
    DeclarationsAreInert(g, allowed);
    LineIsKept(a, Declaration(g, allowed), b);
  }

  lemma MaskStartsLine(b: string)
    requires StartsLine(b)
    ensures StartsLine(Scan(b, Code).masked)
  {
    if b != "" {
      assert TokenAt(b, Code).out == [b[0]];
      ScanUnfolds(b, Code);
    }
  }

  /** A framed declaration is parsed, whatever its value. */
  lemma FramedParses(a: string, b: string, g: Gate, allowed: bool)
    requires Frames(a, b, g) && Terminates(b)
    ensures var s := a + Declaration(g, allowed) + b;
            Mask(s).Some? && ParseGate(s, Mask(s).value, g) == Some(allowed)
  {
    hide Declaration, Name, Scan, Depth, EndsLine, StartsLine, IndexOf;
    var d, other := Declaration(g, allowed), Declaration(g, !allowed);
    var s, x, y := a + d + b, Scan(a, Code).masked, Scan(b, Code).masked;
    var code := x + d + y;
    MaskOfFramed(a, b, g, allowed);
    DeclarationsAreInert(g, allowed);
    DeclarationsAreInert(g, !allowed);
    DeclarationCounts(g, g, allowed);
    CountAround(a, d, b, WholeWord(Name(g)));
    OnlyThatLine(a, b, g, allowed);
    CodeKeepsTerminator(a, Code);
    MaskStartsLine(b);
    NoNameInMask(a, Code, g);
    NoNameInMask(b, Code, g);
    OnlyThatLine(x, y, g, allowed);
    forall i | 0 <= i && Occurs(code, i, d) ensures i == |x| {
      DeclarationOnlyThere(x, y, g, allowed, i);
    }
    assert code[|x|..|x| + |d|] == d;
    FirstIsThere(code, d, |x|);
    assert code[..|x|] == x;
  }

  /** The whole lines of a text whose gate name is only in the declaration. */
  lemma OnlyThatLine(a: string, b: string, g: Gate, allowed: bool)
    requires EndsLine(a) && StartsLine(b)
    requires Count(a, WholeWord(Name(g))) == 0 && Count(b, WholeWord(Name(g))) == 0
    ensures var s := a + Declaration(g, allowed) + b;
            Count(s, WholeLine(Declaration(g, allowed))) == 1 && Count(s, WholeLine(Declaration(g, !allowed))) == 0
  {
    hide Declaration, Name;
    var d, other := Declaration(g, allowed), Declaration(g, !allowed);
    DeclarationsAreInert(g, allowed);
    DeclarationsAreInert(g, !allowed);
    assert d != other by { ValuesDiffer(g); }
    LineHoldsItself(d, d);
    LineHoldsItself(d, other);
    NoNameNoDeclaration(a, g, allowed);
    NoNameNoDeclaration(b, g, allowed);
    NoNameNoDeclaration(a, g, !allowed);
    NoNameNoDeclaration(b, g, !allowed);
    CountAround(a, d, b, WholeLine(d));
    CountAround(a, d, b, WholeLine(other));
  }

  lemma ValuesDiffer(g: Gate)
    ensures Declaration(g, true) != Declaration(g, false)
  {
    hide Name;
    assert |Declaration(g, true)| < |Declaration(g, false)|;
  }

  /** And every parsed gate is a framed declaration. */
  lemma ParsedIsFramed(s: string, g: Gate, allowed: bool) returns (a: string, b: string)
    requires Mask(s).Some? && ParseGate(s, Mask(s).value, g) == Some(allowed)
    ensures s == a + Declaration(g, allowed) + b && Frames(a, b, g) && Terminates(b)
  {
    hide Declaration, Name, Scan, Depth, IndexOf, Matches;
    var d, word, code := Declaration(g, allowed), WholeWord(Name(g)), Mask(s).value;
    var i := SomeCounted(s, WholeLine(d), |s|);
    assert Occurs(s, i, d) && s == s[..i] + d + s[i + |d|..] && EndsLine(s[..i]) && StartsLine(s[i + |d|..]) by {
      LineIsThere(s, i, d);
    }
    a, b := s[..i], s[i + |d|..];
    DeclarationsAreInert(g, allowed);
    DeclarationCounts(g, g, allowed);
    CountAround(a, d, b, word);
    StateAtDeclaration(s, g, allowed, i);
    MaskAround(a, b, g, allowed);
    var x, y := Scan(a, Code).masked, Scan(b, Code).masked;
    CodeKeepsTerminator(a, Code);
    MaskStartsLine(b);
    NoNameInMask(a, Code, g);
    NoNameInMask(b, Code, g);
    DeclarationOnlyThere(x, y, g, allowed, IndexOf(code, d).value);
    assert code[..|x|] == x;
  }

  lemma MaskAround(a: string, b: string, g: Gate, allowed: bool)
    requires EndsLine(a) && Scan(a, Code).state.Code? && Mask(a + Declaration(g, allowed) + b).Some?
    ensures Terminates(b)
    ensures Mask(a + Declaration(g, allowed) + b).value
         == Scan(a, Code).masked + Declaration(g, allowed) + Scan(b, Code).masked
  {
    hide Declaration;
    DeclarationsAreInert(g, allowed);
    LineIsKept(a, Declaration(g, allowed), b);
  }

  lemma LineIsThere(s: string, i: nat, line: string)
    requires Matches(s, i, WholeLine(line))
    ensures Occurs(s, i, line) && s == s[..i] + line + s[i + |line|..] && EndsLine(s[..i]) && StartsLine(s[i + |line|..])
  {
    LineSplits(s, i, line);
  }

  /** The declared line is code: the line found in the mask is the one found in the source. */
  lemma StateAtDeclaration(s: string, g: Gate, allowed: bool, i: nat)
    requires Mask(s).Some? && Count(s, WholeWord(Name(g))) == 1
    requires Occurs(s, i, Declaration(g, allowed)) && EndsLine(s[..i])
    requires Count(Mask(s).value, WholeLine(Declaration(g, allowed))) == 1
    ensures Scan(s[..i], Code).state.Code?
  {
    hide Declaration, Name, Scan, Matches, CountTo, EndsLine;
    var d, word, code := Declaration(g, allowed), WholeWord(Name(g)), Mask(s).value;
    var j := SomeCounted(code, WholeLine(d), |code|);
    LineIsThere(code, j, d);
    DeclarationHoldsName(code, g, allowed, j);
    MaskedNameIsName(s, Code, g, j + 13);
    DeclarationHoldsName(s, g, allowed, i);
    WordInRange(s, g, i + 13);
    WordInRange(s, g, j + 13);
    OneCounted(s, word, |s|, i + 13, j + 13);
    NameInDeclaration(g, allowed);
    KeptTextIsCode(s, i, d);
  }

  /** A line whose text the mask has kept begins in code. */
  lemma KeptTextIsCode(s: string, i: nat, text: string)
    requires text != "" && text[0] == 'e' && Occurs(s, i, text) && Occurs(Scan(s, Code).masked, i, text) && EndsLine(s[..i])
    ensures Scan(s[..i], Code).state.Code?
  {
    hide Scan, EndsLine;
    var code := Scan(s, Code).masked;
    assert code[i] == code[i..i + |text|][0] && s[i] == s[i..i + |text|][0];
    assert s == s[..i] + s[i..] && s[i..][0] == s[i];
    KeptMeansCode(s[..i], s[i..]);
  }

  lemma WordInRange(s: string, g: Gate, i: nat)
    requires Matches(s, i, WholeWord(Name(g)))
    ensures i < |s|
  {
    NameLetters(g);
  }

  // -------------------------------------------------------------------- both declarations

  function Fill(p: string, q: string, r: string, x: string, y: string): string {
    p + x + q + y + r
  }

  /** The line of `g`, in the order the two declarations come in. */
  function LineOf(gates: Gates, g: Gate): string {
    Declaration(g, Value(gates, g))
  }

  predicate FreeOf(text: string) {
    && Count(text, WholeWord(Name(Import))) == 0 && Count(text, WholeWord(Name(Activation))) == 0
    && Count(text, Anywhere(MARKER)) == 0
  }

  /** The text around both declarations, the one of `first` coming first: code at top level, free of names and markers. */
  predicate FramesBoth(p: string, q: string, r: string) {
    && EndsLine(p) && q != "" && StartsLine(q) && EndsLine(q) && StartsLine(r)
    && Scan(p, Code).state.Code? && Scan(q, Code).state.Code? && Terminates(r)
    && Depth(Scan(p, Code).masked, 0) == Some(0) && Depth(Scan(q, Code).masked, 0) == Some(0)
    && FreeOf(p) && FreeOf(q) && FreeOf(r)
  }

  /** A line that can stand where a declaration stood, as far as gate `g` is concerned. */
  predicate Harmless(line: string, g: Gate) {
    OneLine(line) && Count(line, WholeWord(Name(g))) == 0
  }

  lemma FillSplits(p: string, q: string, r: string, x: string, y: string)
    ensures Fill(p, q, r, x, y) == p + x + (q + y + r) && Fill(p, q, r, x, y) == (p + x + q) + y + r
  {
  }

  lemma AroundFirst(p: string, q: string, r: string, y: string, g: Gate)
    requires FramesBoth(p, q, r) && Harmless(y, g)
    ensures EndsLine(p) && StartsLine(q + y + r)
    ensures Count(p, WholeWord(Name(g))) == 0 && Count(q + y + r, WholeWord(Name(g))) == 0
  {
    hide Name, Scan, Depth;
    DeclarationsAreInert(g, true);
    CountAround(q, y, r, WholeWord(Name(g)));
    assert (q + y + r)[0] == q[0];
  }

  lemma AroundSecond(p: string, q: string, r: string, x: string, g: Gate)
    requires FramesBoth(p, q, r) && Harmless(x, g)
    ensures EndsLine(p + x + q) && StartsLine(r)
    ensures Count(p + x + q, WholeWord(Name(g))) == 0 && Count(r, WholeWord(Name(g))) == 0
  {
    hide Name, Scan, Depth;
    DeclarationsAreInert(g, true);
    CountAround(p, x, q, WholeWord(Name(g)));
    var s := p + x + q;
    assert s[|s| - 1] == q[|q| - 1];
  }

  lemma OtherIsHarmless(g: Gate, allowed: bool)
    ensures Harmless(Declaration(Other(g), allowed), g)
  {
    hide Declaration, Name;
    DeclarationsAreInert(Other(g), allowed);
    DeclarationCounts(Other(g), g, allowed);
  }

  lemma FirstFramed(p: string, q: string, r: string, g: Gate, second: bool)
    requires FramesBoth(p, q, r)
    ensures Frames(p, q + Declaration(Other(g), second) + r, g) && Terminates(q + Declaration(Other(g), second) + r)
  {
    hide Name, Declaration, Depth;
    OtherIsHarmless(g, second);
    AroundFirst(p, q, r, Declaration(Other(g), second), g);
    DeclarationsAreInert(Other(g), second);
    LineIsKept(q, Declaration(Other(g), second), r);
  }

  lemma SecondFramed(p: string, q: string, r: string, g: Gate, first: bool)
    requires FramesBoth(p, q, r)
    ensures Frames(p + Declaration(Other(g), first) + q, r, g)
  {
    hide Name, Declaration, Depth, Scan;
    OtherIsHarmless(g, first);
    AroundSecond(p, q, r, Declaration(Other(g), first), g);
    DeclarationsAreInert(Other(g), first);
    LineIsKept(p, Declaration(Other(g), first), q);
    LineKeepsDepth(Scan(p, Code).masked, Declaration(Other(g), first), Scan(q, Code).masked);
  }

  /** An inert line does not move the brace depth. */
  lemma LineKeepsDepth(x: string, line: string, y: string)
    requires Inert(line) && Depth(x, 0) == Some(0)
    ensures Depth(x + line + y, 0) == Depth(y, 0)
  {
    hide Depth;
    DepthSplits(x + line, y, 0);
    DepthSplits(x, line, 0);
    assert Depth(line, 0) == Some(0) by { NoBraceNoDepth(line, 0); }
  }

  lemma MarkerIsOneLine()
    ensures OneLine(MARKER)
  {
    hide MARKER;
    SmallLetters();
  }

  /** A text with a letter that `s` lacks does not occur in `s`. */
  lemma LetterBlocks(s: string, m: Matcher, k: nat)
    requires k < |m.text| && m.text[k] !in s
    ensures Count(s, m) == 0
  {
    forall i | 0 <= i < |s| ensures !Matches(s, i, m) {
      if i + |m.text| <= |s| { SliceLetter(s, i, |m.text|, k); }
    }
    NoMatchNoCount(s, m, |s|);
  }

  lemma SliceLetter(s: string, i: nat, n: nat, k: nat)
    requires i + n <= |s| && k < n
    ensures s[i..i + n][k] == s[i + k] && s[i..i + n][k] in s
  {
  }

  /** No declaration holds the marker, which has a dot no declaration has. */
  lemma DeclarationHasNoMarker(g: Gate, allowed: bool)
    ensures Count(Declaration(g, allowed), Anywhere(MARKER)) == 0
  {
    hide Declaration;
    NoDot(g, allowed);
    assert MARKER[8] == '.';
    LetterBlocks(Declaration(g, allowed), Anywhere(MARKER), 8);
  }

  lemma NoDot(g: Gate, allowed: bool)
    ensures '.' !in Declaration(g, allowed)
  {
    hide Name, IsWord;
    NameLetters(g);
    LeadHasNoDot(allowed);
    var name := Name(g);
    forall c | c in name ensures c != '.' {
      var i :| 0 <= i < |name| && name[i] == c;
      assert IsWord(name[i]);
    }
  }

  lemma LeadHasNoDot(allowed: bool)
    ensures '.' !in LEAD && '.' !in Tail(allowed) && !IsWord('.')
  {
  }

  /** Framed declarations parse to their values. */
  lemma FilledParses(p: string, q: string, r: string, first: Gate, gates: Gates)
    requires FramesBoth(p, q, r)
    ensures ParseMode(Fill(p, q, r, LineOf(gates, first), LineOf(gates, Other(first)))) == Some(gates)
  {
    hide Declaration, Name, Scan, Depth, ParseGate, Frames, FreeOf, MARKER;
    var x, y := LineOf(gates, first), LineOf(gates, Other(first));
    FillSplits(p, q, r, x, y);
    FirstFramed(p, q, r, first, Value(gates, Other(first)));
    FramedParses(p, q + y + r, first, Value(gates, first));
    SecondFramed(p, q, r, Other(first), Value(gates, first));
    FramedParses(p + x + q, r, Other(first), Value(gates, Other(first)));
    NoMarkers(p, q, r, first, gates);
  }

  lemma NoMarkers(p: string, q: string, r: string, first: Gate, gates: Gates)
    requires FramesBoth(p, q, r)
    ensures Count(Fill(p, q, r, LineOf(gates, first), LineOf(gates, Other(first))), Anywhere(MARKER)) == 0
  {
    hide Declaration, Name, Scan, Depth, MARKER;
    var x, y, m := LineOf(gates, first), LineOf(gates, Other(first)), Anywhere(MARKER);
    FillSplits(p, q, r, x, y);
    MarkerIsOneLine();
    DeclarationsAreInert(first, Value(gates, first));
    DeclarationsAreInert(Other(first), Value(gates, Other(first)));
    DeclarationHasNoMarker(first, Value(gates, first));
    DeclarationHasNoMarker(Other(first), Value(gates, Other(first)));
    CountAround(p, x, q, m);
    var s := p + x + q;
    assert s[|s| - 1] == q[|q| - 1];
    CountAround(s, y, r, m);
  }

  // -------------------------------------------------------- parsed text has this shape

  lemma DeclarationsApart(s: string, g: Gate, v: bool, w: bool, i: nat, j: nat)
    requires Occurs(s, i, Declaration(g, v)) && Occurs(s, j, Declaration(Other(g), w))
    ensures i != j
  {
    hide Declaration, Name, Tail, LEAD;
    LeadIsInert();
    NameLetters(g);
    NameLetters(Other(g));
    LetterAt(g, v, 31);
    LetterAt(Other(g), w, 31);
    var d, e := Declaration(g, v), Declaration(Other(g), w);
    assert s[i..i + |d|][31] == s[i + 31] && s[j..j + |e|][31] == s[j + 31];
  }

  /** Two framed declarations in one text, the one of `g` first, leave a whole piece between them. */
  lemma Between(s: string, g: Gate, v: bool, w: bool, a: string, b: string, x: string, y: string) returns (q: string)
    requires s == a + Declaration(g, v) + b && Frames(a, b, g)
    requires s == x + Declaration(Other(g), w) + y && Frames(x, y, Other(g)) && Terminates(y)
    requires |a| < |x| && Count(s, Anywhere(MARKER)) == 0
    ensures FramesBoth(a, q, y) && s == Fill(a, q, y, Declaration(g, v), Declaration(Other(g), w))
  {
    hide Declaration, Name, Scan, Depth, MARKER;
    var d, e := Declaration(g, v), Declaration(Other(g), w);
    DeclarationsAreInert(g, v);
    DeclarationsAreInert(Other(g), w);
    assert Occurs(s, |a|, d) by { assert s[|a|..|a| + |d|] == d; }
    assert s[|x| - 1] == x[|x| - 1];
    if |x| - 1 < |a| + |d| { TerminatorBlocks(s, |a|, d, |x| - 1); }
    assert |x| > |a| + |d|;
    q := s[|a| + |d|..|x|];
    PiecesFit(s, a, d, b, x, e, y, q);
    LineIsKept(a, d, q);
    LineKeepsDepth(Scan(a, Code).masked, d, Scan(q, Code).masked);
    BetweenIsFree(g, v, w, a, q, y);
  }

  lemma PiecesFit(s: string, a: string, d: string, b: string, x: string, e: string, y: string, q: string)
    requires s == a + d + b && s == x + e + y && |a| + |d| < |x| && q == s[|a| + |d|..|x|]
    ensures x == a + d + q && b == q + e + y && s == Fill(a, q, y, d, e)
    ensures q != "" && q[0] == b[0] && q[|q| - 1] == x[|x| - 1]
  {
    assert s[..|x|] == x && s[..|a| + |d|] == a + d && s[|a| + |d|..] == b && s[|x|..] == e + y;
    assert x == s[..|a| + |d|] + q;
    assert b == q + s[|x|..];
    FillSplits(a, q, y, d, e);
  }

  lemma BetweenIsFree(g: Gate, v: bool, w: bool, a: string, q: string, y: string)
    requires EndsLine(a) && q != "" && StartsLine(q) && EndsLine(q) && StartsLine(y)
    requires Count(a, WholeWord(Name(g))) == 0 && Count(q + Declaration(Other(g), w) + y, WholeWord(Name(g))) == 0
    requires Count(a + Declaration(g, v) + q, WholeWord(Name(Other(g)))) == 0 && Count(y, WholeWord(Name(Other(g)))) == 0
    requires Count(Fill(a, q, y, Declaration(g, v), Declaration(Other(g), w)), Anywhere(MARKER)) == 0
    ensures FreeOf(a) && FreeOf(q) && FreeOf(y)
  {
    hide Declaration, Name, MARKER;
    var d, e, m := Declaration(g, v), Declaration(Other(g), w), Anywhere(MARKER);
    DeclarationsAreInert(g, v);
    DeclarationsAreInert(Other(g), w);
    MarkerIsOneLine();
    CountAround(q, e, y, WholeWord(Name(g)));
    CountAround(a, d, q, WholeWord(Name(Other(g))));
    CountAround(a, d, q, m);
    FillSplits(a, q, y, d, e);
    var s := a + d + q;
    assert s[|s| - 1] == q[|q| - 1];
    CountAround(s, e, y, m);
  }

  lemma ParsedIsFilled(s: string, gates: Gates) returns (first: Gate, p: string, q: string, r: string)
    requires ParseMode(s) == Some(gates)
    ensures FramesBoth(p, q, r) && s == Fill(p, q, r, LineOf(gates, first), LineOf(gates, Other(first)))
  {
    hide Declaration, Name, ParseGate, Frames, FramesBoth, Fill, MARKER, Mask;
    var a, b := ParsedIsFramed(s, Import, gates.importAllowed);
    var x, y := ParsedIsFramed(s, Activation, gates.activationAllowed);
    var d, e := LineOf(gates, Import), LineOf(gates, Activation);
    assert s[|a|..|a| + |d|] == d && s[|x|..|x| + |e|] == e;
    DeclarationsApart(s, Import, gates.importAllowed, gates.activationAllowed, |a|, |x|);
    if |a| < |x| {
      q := Between(s, Import, gates.importAllowed, gates.activationAllowed, a, b, x, y);
      first, p, r := Import, a, y;
    } else {
      q := Between(s, Activation, gates.activationAllowed, gates.importAllowed, x, y, a, b);
      first, p, r := Activation, x, b;
    }
  }

  // ---------------------------------------------------------------------- the rewriting

  lemma ReplacesFirst(p: string, q: string, r: string, g: Gate, allowed: bool, y: string, instead: string)
    requires FramesBoth(p, q, r) && Harmless(y, g)
    ensures ReplaceFirst(Fill(p, q, r, Declaration(g, allowed), y), Declaration(g, allowed), instead) == Fill(p, q, r, instead, y)
  {
    hide Declaration, Name, FramesBoth, ReplaceFirst;
    AroundFirst(p, q, r, y, g);
    ReplacesLine(p, q + y + r, g, allowed, instead);
    FillSplits(p, q, r, Declaration(g, allowed), y);
    FillSplits(p, q, r, instead, y);
  }

  lemma ReplacesSecond(p: string, q: string, r: string, g: Gate, allowed: bool, x: string, instead: string)
    requires FramesBoth(p, q, r) && Harmless(x, g)
    ensures ReplaceFirst(Fill(p, q, r, x, Declaration(g, allowed)), Declaration(g, allowed), instead) == Fill(p, q, r, x, instead)
  {
    hide Declaration, Name, FramesBoth, ReplaceFirst;
    AroundSecond(p, q, r, x, g);
    ReplacesLine(p + x + q, r, g, allowed, instead);
    FillSplits(p, q, r, x, Declaration(g, allowed));
    FillSplits(p, q, r, x, instead);
  }

  /** Replacing both declarations, import first, replaces both lines, whichever comes first. */
  lemma ReplacesBoth(p: string, q: string, r: string, first: Gate, gates: Gates, x: string, y: string)
    requires FramesBoth(p, q, r) && Harmless(x, Activation)
    ensures var s := Fill(p, q, r, LineOf(gates, first), LineOf(gates, Other(first)));
            ReplaceFirst(ReplaceFirst(s, LineOf(gates, Import), x), LineOf(gates, Activation), y)
            == if first.Import? then Fill(p, q, r, x, y) else Fill(p, q, r, y, x)
  {
    hide Declaration, Name, FramesBoth, ReplaceFirst, Fill;
    OtherIsHarmless(Import, gates.activationAllowed);
    if first.Import? {
      ReplacesFirst(p, q, r, Import, gates.importAllowed, LineOf(gates, Activation), x);
      ReplacesSecond(p, q, r, Activation, gates.activationAllowed, x, y);
    } else {
      ReplacesSecond(p, q, r, Import, gates.importAllowed, LineOf(gates, Activation), x);
      ReplacesFirst(p, q, r, Activation, gates.activationAllowed, x, y);
    }
  }

  lemma MarkerIsHarmless()
    ensures Harmless(MarkerLine(Import), Activation)
  {
    hide Name, MarkerLine, Count;
    NameLetters(Activation);
    MarkerLetters();
    LetterBlocks(MarkerLine(Import), WholeWord(Name(Activation)), 0);
  }

  lemma MarkerLetters()
    ensures 'G' !in MarkerLine(Import) && OneLine(MarkerLine(Import))
  {
    hide MARKER;
    SmallLetters();
  }

  lemma SmallLetters()
    ensures |MARKER| == 36
    ensures forall i | 0 <= i < |MARKER| :: MARKER[i] != 'G' && !IsTerminator(MARKER[i])
  {
  }

  lemma Rewrites(p: string, q: string, r: string, first: Gate, gates: Gates, target: Gates)
    requires FramesBoth(p, q, r)
    ensures var s := Fill(p, q, r, LineOf(gates, first), LineOf(gates, Other(first)));
            && Rewrite(s, gates, target) == Fill(p, q, r, LineOf(target, first), LineOf(target, Other(first)))
            && Neutral(s, gates) == (if first.Import? then Fill(p, q, r, MarkerLine(Import), MarkerLine(Activation))
                                     else Fill(p, q, r, MarkerLine(Activation), MarkerLine(Import)))
  {
    hide Declaration, Name, FramesBoth, ReplaceFirst, Fill, MarkerLine;
    OtherIsHarmless(Activation, target.importAllowed);
    ReplacesBoth(p, q, r, first, gates, LineOf(target, Import), LineOf(target, Activation));
    MarkerIsHarmless();
    ReplacesBoth(p, q, r, first, gates, MarkerLine(Import), MarkerLine(Activation));
  }

  // ------------------------------------------------------------------------ the theorems

  /** On every production source normalization succeeds and yields exactly the target mode. */
  lemma NormalizationReachesTarget(source: string, activation: bool)
    requires ParseProduction(source).Some?
    ensures Normalize(source, activation).Normalized?
    ensures ParseMode(Normalize(source, activation).source) == Some(Gates(true, activation))
    ensures Neutral(Normalize(source, activation).source, Gates(true, activation))
         == Neutral(source, ParseProduction(source).value)
  {
    hide Declaration, Name, FramesBoth, Fill, Rewrite, Neutral, ParseGate;
    var gates, target := ParseProduction(source).value, Gates(true, activation);
    var first, p, q, r := ParsedIsFilled(source, gates);
    Rewrites(p, q, r, first, gates, target);
    Rewrites(p, q, r, first, target, target);
    FilledParses(p, q, r, first, target);
  }

  /** The production parser refuses both gates open, and accepts every other pair. */
  lemma ProductionIsNeverFullyOpen(source: string, gates: Gates)
    ensures ParseProduction(source) == Some(gates)
       <==> ParseMode(source) == Some(gates) && !(gates.importAllowed && gates.activationAllowed)
  {
    hide ParseMode;
  }

  /** A source that holds the marker is refused. */
  lemma MarkedIsRefused(x: string, y: string)
    ensures ParseMode(x + MARKER + y).None?
  {
    hide MARKER, Count;
    SmallLetters();
    AnywhereFinds(x, MARKER, y);
  }

  /** A normalized copy is production source again exactly if the activation gate stays closed. */
  lemma NormalizedInProduction(source: string, activation: bool, normalized: string)
    requires ParseProduction(source).Some? && Normalize(source, activation) == Normalized(normalized)
    ensures ParseProduction(normalized) == if activation then None else Some(Gates(true, false))
  {
    hide ParseMode, ParseProduction, Normalize;
    NormalizationReachesTarget(source, activation);
    ProductionIsNeverFullyOpen(normalized, Gates(true, activation));
    if activation { ParsedOnce(normalized); }
  }

  lemma ParsedOnce(source: string)
    requires ParseMode(source) == Some(Gates(true, true))
    ensures ParseProduction(source).None?
  {
    hide ParseMode;
  }

  /** Opening the import gate and then both is opening both directly. */
  lemma TwoStepsAreOne(source: string)
    requires ParseProduction(source).Some?
    ensures Normalize(source, false).Normalized?
    ensures Normalize(Normalize(source, false).source, true) == Normalize(source, true)
  {
    hide Declaration, Name, FramesBoth, Fill, Rewrite, Neutral, ParseGate, ParseMode;
    var gates, mid, target := ParseProduction(source).value, Gates(true, false), Gates(true, true);
    var first, p, q, r := ParsedIsFilled(source, gates);
    Rewrites(p, q, r, first, gates, mid);
    Rewrites(p, q, r, first, gates, target);
    Rewrites(p, q, r, first, mid, target);
    Rewrites(p, q, r, first, target, target);
    FilledParses(p, q, r, first, mid);
    FilledParses(p, q, r, first, target);
  }
}
