/** Counting what the gate parser looks for in a text, and how counts add up over lines. */
module GateText {
  import opened Wrappers
  import opened GateMask

  /** `\w` */
  predicate IsWord(c: char) {
    'a' <= c <= 'z' || 'A' <= c <= 'Z' || '0' <= c <= '9' || c == '_'
  }

  /** A search for a whole line (`^...$` with flags gmu), a whole word (`\b...\b`), or any occurrence. */
  datatype Matcher = WholeLine(text: string) | WholeWord(text: string) | Anywhere(text: string)

  predicate Occurs(s: string, i: int, text: string) {
    0 <= i && i + |text| <= |s| && s[i..i + |text|] == text
  }

  predicate Matches(s: string, i: int, m: Matcher) {
    && Occurs(s, i, m.text)
    && match m
       case Anywhere(_) => true
       case WholeLine(text) =>
         && (i > 0 ==> IsTerminator(s[i - 1]))
         && (i + |text| < |s| ==> IsTerminator(s[i + |text|]))
       case WholeWord(text) =>
         && (i > 0 ==> !IsWord(s[i - 1]))
         && (i + |text| < |s| ==> !IsWord(s[i + |text|]))
  }

  /** The letters, digits and underscore of ASCII, by code. */
  ghost predicate Alphanumeric(code: int) {
    48 <= code <= 57 || 65 <= code <= 90 || code == 95 || 97 <= code <= 122
  }

  /** Between two characters a word stands alone exactly if neither belongs to a word. */
  lemma WordStandsAlone(x: string, left: char, word: string, right: char, y: string)
    ensures Matches(x + [left] + word + [right] + y, |x| + 1, WholeWord(word))
       <==> !Alphanumeric(left as int) && !Alphanumeric(right as int)
  {
    var s := x + [left] + word + [right] + y;
    assert s[|x| + 1..|x| + 1 + |word|] == word && s[|x|] == left && s[|x| + 1 + |word|] == right;
  }

  /** At the edges of the text nothing more is asked. */
  lemma WordStandsAtEdges(word: string, c: char, rest: string)
    ensures Matches(word, 0, WholeWord(word))
    ensures Matches(word + [c] + rest, 0, WholeWord(word)) <==> !Alphanumeric(c as int)
    ensures Matches(rest + [c] + word, |rest| + 1, WholeWord(word)) <==> !Alphanumeric(c as int)
  {
    var s, t := word + [c] + rest, rest + [c] + word;
    assert word[0..|word|] == word;
    assert s[0..|word|] == word && s[|word|] == c;
    assert t[|rest| + 1..|rest| + 1 + |word|] == word && t[|rest|] == c;
  }

  /** Any occurrence at all is counted. */
  lemma AnywhereFinds(x: string, text: string, y: string)
    requires text != ""
    ensures Count(x + text + y, Anywhere(text)) > 0
  {
    var s := x + text + y;
    assert s[|x|..|x| + |text|] == text;
    assert Matches(s, |x|, Anywhere(text));
    if Count(s, Anywhere(text)) == 0 { NoneCounted(s, Anywhere(text), |s|, |x|); }
  }

  /** One line's worth of text. */
  predicate OneLine(text: string) {
    text != "" && forall i | 0 <= i < |text| :: !IsTerminator(text[i])
  }

  function CountTo(s: string, m: Matcher, n: nat): nat {
    if n == 0 then 0 else CountTo(s, m, n - 1) + if Matches(s, n - 1, m) then 1 else 0
  }

  /** The number of matches of a text without line terminators. */
  function Count(s: string, m: Matcher): nat {
    CountTo(s, m, |s|)
  }

  // ------------------------------------------------------------------- counts of lines

  /** `x` ends a line or `y` starts one: no match lies across the place where they meet. */
  predicate Separated(x: string, y: string) {
    x == "" || y == "" || IsTerminator(x[|x| - 1]) || IsTerminator(y[0])
  }

  /** One line's text does not occur across a terminator. */
  lemma TerminatorBlocks(s: string, i: nat, text: string, k: nat)
    requires OneLine(text) && i <= k < i + |text| <= |s| && IsTerminator(s[k])
    ensures !Occurs(s, i, text)
  {
    assert s[i..i + |text|][k - i] == s[k];
  }

  lemma OccursLeft(x: string, y: string, i: nat, text: string)
    requires i < |x| && Separated(x, y) && OneLine(text)
    ensures Occurs(x + y, i, text) <==> Occurs(x, i, text)
  {
    var s := x + y;
    if i + |text| <= |x| {
      assert s[i..i + |text|] == x[i..i + |text|];
    } else if i + |text| <= |s| {
      TerminatorBlocks(s, i, text, if IsTerminator(x[|x| - 1]) then |x| - 1 else |x|);
    }
  }

  lemma MatchesLeft(x: string, y: string, i: nat, m: Matcher)
    requires i < |x| && Separated(x, y) && OneLine(m.text)
    ensures Matches(x + y, i, m) <==> Matches(x, i, m)
  {
    OccursLeft(x, y, i, m.text);
    if i + |m.text| == |x| && IsTerminator(x[|x| - 1]) {
      TerminatorBlocks(x, i, m.text, |x| - 1);
    }
  }

  lemma OccursRight(x: string, y: string, i: nat, text: string)
    requires i < |y|
    ensures Occurs(x + y, |x| + i, text) <==> Occurs(y, i, text)
  {
    if i + |text| <= |y| {
      assert (x + y)[|x| + i..|x| + i + |text|] == y[i..i + |text|];
    }
  }

  lemma MatchesRight(x: string, y: string, i: nat, m: Matcher)
    requires i < |y| && Separated(x, y) && OneLine(m.text)
    ensures Matches(x + y, |x| + i, m) <==> Matches(y, i, m)
  {
    OccursRight(x, y, i, m.text);
    if i == 0 && IsTerminator(y[0]) && |m.text| <= |y| {
      TerminatorBlocks(y, 0, m.text, 0);
    }
  }

  lemma {:induction false} CountLeft(x: string, y: string, m: Matcher, n: nat)
    requires n <= |x| && Separated(x, y) && OneLine(m.text)
    ensures CountTo(x + y, m, n) == CountTo(x, m, n)
  {
    if n > 0 {
      CountLeft(x, y, m, n - 1);
      MatchesLeft(x, y, n - 1, m);
    }
  }

  lemma {:induction false} CountRight(x: string, y: string, m: Matcher, n: nat)
    requires n <= |y| && Separated(x, y) && OneLine(m.text)
    ensures CountTo(x + y, m, |x| + n) == Count(x, m) + CountTo(y, m, n)
  {
    hide Matches, Occurs, IsTerminator;
    if n == 0 {
      CountLeft(x, y, m, |x|);
    } else {
      CountRight(x, y, m, n - 1);
      MatchesRight(x, y, n - 1, m);
    }
  }

  /** Counts add up over separated texts. */
  lemma CountAdds(x: string, y: string, m: Matcher)
    requires Separated(x, y) && OneLine(m.text)
    ensures Count(x + y, m) == Count(x, m) + Count(y, m)
  {
    CountRight(x, y, m, |y|);
  }

  /** `a`, a line, `b`: as a count over the three. */
  lemma CountAround(a: string, line: string, b: string, m: Matcher)
    requires EndsLine(a) && OneLine(line) && StartsLine(b) && OneLine(m.text)
    ensures Count(a + line + b, m) == Count(a, m) + Count(line, m) + Count(b, m)
  {
    assert Separated(a, line) && Separated(a + line, b);
    CountAdds(a, line, m);
    CountAdds(a + line, b, m);
  }

  // ------------------------------------------------------------------------ single counts

  lemma {:induction false} NoneCounted(s: string, m: Matcher, n: nat, i: nat)
    requires CountTo(s, m, n) == 0 && i < n
    ensures !Matches(s, i, m)
  {
    if i < n - 1 {
      NoneCounted(s, m, n - 1, i);
    }
  }

  lemma {:induction false} NoMatchNoCount(s: string, m: Matcher, n: nat)
    requires forall i | 0 <= i < n :: !Matches(s, i, m)
    ensures CountTo(s, m, n) == 0
  {
    if n > 0 {
      NoMatchNoCount(s, m, n - 1);
    }
  }

  lemma {:induction false} SomeCounted(s: string, m: Matcher, n: nat) returns (i: nat)
    requires CountTo(s, m, n) > 0
    ensures i < n && Matches(s, i, m)
  {
    if Matches(s, n - 1, m) { i := n - 1; } else { i := SomeCounted(s, m, n - 1); }
  }

  lemma {:induction false} OneCounted(s: string, m: Matcher, n: nat, i: nat, j: nat)
    requires CountTo(s, m, n) == 1 && i < n && j < n && Matches(s, i, m) && Matches(s, j, m)
    ensures i == j
  {
    if Matches(s, n - 1, m) {
      if i < n - 1 { NoneCounted(s, m, n - 1, i); }
      if j < n - 1 { NoneCounted(s, m, n - 1, j); }
    } else {
      OneCounted(s, m, n - 1, i, j);
    }
  }

  lemma {:induction false} OnlyMatchCounts(s: string, m: Matcher, n: nat, i: nat)
    requires i < n && Matches(s, i, m) && forall j | 0 <= j < n && j != i :: !Matches(s, j, m)
    ensures CountTo(s, m, n) == 1
  {
    if i == n - 1 {
      NoMatchNoCount(s, m, n - 1);
    } else {
      OnlyMatchCounts(s, m, n - 1, i);
    }
  }

  /** A line holds one whole line: itself. */
  lemma LineHoldsItself(line: string, other: string)
    requires OneLine(line) && OneLine(other)
    ensures Count(line, WholeLine(other)) == if line == other then 1 else 0
  {
    var m := WholeLine(other);
    assert line[0..|line|] == line;
    assert |other| < |line| ==> !IsTerminator(line[|other|]);
    forall i | 0 < i < |line| ensures !Matches(line, i, m) {}
    if line == other {
      OnlyMatchCounts(line, m, |line|, 0);
    } else {
      NoMatchNoCount(line, m, |line|);
    }
  }

  /** A whole line splits the text around it. */
  lemma LineSplits(s: string, i: nat, line: string)
    requires Matches(s, i, WholeLine(line))
    ensures s == s[..i] + line + s[i + |line|..] && EndsLine(s[..i]) && StartsLine(s[i + |line|..])
  {
  }

  // --------------------------------------------------------------- first occurrence, depth

  /** `indexOf` */
  function IndexFrom(s: string, text: string, i: nat): (index: Option<nat>)
    ensures index.Some? ==> index.value >= i && Occurs(s, index.value, text)
    ensures index.Some? ==> forall j | i <= j < index.value :: !Occurs(s, j, text)
    ensures index.None? ==> forall j | i <= j :: !Occurs(s, j, text)
    decreases |s| - i
  {
    if i + |text| > |s| then None else if Occurs(s, i, text) then Some(i) else IndexFrom(s, text, i + 1)
  }

  function IndexOf(s: string, text: string): (index: Option<nat>)
    ensures index.Some? ==> Occurs(s, index.value, text) && forall j | 0 <= j < index.value :: !Occurs(s, j, text)
    ensures index.None? ==> forall j | 0 <= j :: !Occurs(s, j, text)
  {
    IndexFrom(s, text, 0)
  }

  /** `replace` with a string: the first occurrence. */
  function ReplaceFirst(s: string, text: string, instead: string): string {
    var index := IndexOf(s, text);
    if index.None? then s else s[..index.value] + instead + s[index.value + |text|..]
  }

  /** The brace depth after `s`; `None` once it has been negative. */
  function Depth(s: string, from: nat): Option<nat> {
    if s == "" then Some(from)
    else if s[0] == '{' then Depth(s[1..], from + 1)
    else if s[0] == '}' then if from == 0 then None else Depth(s[1..], from - 1)
    else Depth(s[1..], from)
  }

  lemma {:induction false} DepthSplits(x: string, y: string, from: nat)
    ensures Depth(x + y, from) == match Depth(x, from) case None => None case Some(d) => Depth(y, d)
  {
    if x == "" {
      assert x + y == y;
    } else {
      assert (x + y)[1..] == x[1..] + y;
      DepthSplits(x[1..], y, if x[0] == '{' then from + 1 else if x[0] == '}' then if from == 0 then 0 else from - 1 else from);
    }
  }

  lemma {:induction false} NoBraceNoDepth(s: string, from: nat)
    requires forall i | 0 <= i < |s| :: s[i] != '{' && s[i] != '}'
    ensures Depth(s, from) == Some(from)
  {
    if s != "" {
      NoBraceNoDepth(s[1..], from);
    }
  }

  predicate TopLevel(code: string, declaration: string) {
    var index := IndexOf(code, declaration);
    index.Some? && Depth(code[..index.value], 0) == Some(0)
  }

  /** `declarationIsTopLevel` */
  method DeclarationIsTopLevel(code: string, declaration: string) returns (top: bool)
    ensures top == TopLevel(code, declaration)
  {
    hide IndexOf;
    var declarationIndex := IndexOf(code, declaration);
    if declarationIndex.None? { return false; }
    var prefix, braceDepth := code[..declarationIndex.value], 0;
    assert prefix[0..] == prefix;
    for index := 0 to |prefix|
      invariant braceDepth >= 0 && Depth(prefix, 0) == Depth(prefix[index..], braceDepth)
    {
      assert prefix[index..][1..] == prefix[index + 1..];
      if prefix[index] == '{' { braceDepth := braceDepth + 1; }
      else if prefix[index] == '}' {
        if braceDepth == 0 { return false; }
        braceDepth := braceDepth - 1;
      }
    }
    assert prefix[|prefix|..] == "";
    top := braceDepth == 0;
  }
}
