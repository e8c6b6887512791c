/**
 Snapshots and the expected-after predicate of the cutover journal
 (scripts/greater-realm-cutover-operation-journal.ts).

 A snapshot is a canonical JSON value. It is flattened to a map from dotted paths to
 leaves, and a predicate holds one rule per path; every path without a rule must be
 unchanged.
 */
module SnapshotRules {
  import opened Wrappers

  /** Canonical JSON. Object entries are a map: the source sorts them by key. */
  datatype Json =
    | JNull
    | JBool(bit: bool)
    | JNum(num: int)
    | JStr(text: string)
    | JArr(items: seq<Json>)
    | JObj(fields: map<string, Json>)

  /** A non-empty object is walked into; everything else is a leaf, `{}` included. */
  predicate IsBranch(value: Json) {
    value.JObj? && value.fields != map[]
  }

  /** Every key met while flattening is non-empty and holds no dot. */
  predicate WellKeyed(value: Json) {
    IsBranch(value) ==>
      forall key | key in value.fields :: PlainKey(key) && WellKeyed(value.fields[key])
  }

  predicate PlainKey(key: string) {
    key != "" && '.' !in key
  }

  // ---------------------------------------------------------------- flattening

  /** The leaves of a value, by the list of keys that leads to each. */
  function Leaves(value: Json): map<seq<string>, Json> {
    if IsBranch(value) then
      map path | path in LeafPaths(value) :: LeafAt(value, path)
    else
      map[[] := value]
  }

  function LeafPaths(value: Json): set<seq<string>> {
    if IsBranch(value) then
      set key, rest | key in value.fields && rest in LeafPaths(value.fields[key]) :: [key] + rest
    else
      {[]}
  }

  function LeafAt(value: Json, path: seq<string>): Json
    requires path in LeafPaths(value)
  {
    if IsBranch(value) then
      assert path != [] && path[0] in value.fields && path[1..] in LeafPaths(value.fields[path[0]]) by {
        var key, rest :| key in value.fields && rest in LeafPaths(value.fields[key]) && path == [key] + rest;
        assert path[1..] == rest;
      }
      LeafAt(value.fields[path[0]], path[1..])
    else
      value
  }

  /** `path === '' ? key : path + '.' + key`, from the root down. */
  function Join(path: seq<string>): string {
    if path == [] then "" else if |path| == 1 then path[0] else path[0] + "." + Join(path[1..])
  }

  ghost predicate PlainPath(path: seq<string>) {
    forall i | 0 <= i < |path| :: PlainKey(path[i])
  }

  /** `flattenSnapshotValue`: fails on a value that is a leaf itself, as the source does. */
  function Flatten(value: Json): (flat: Option<map<string, Json>>)
    requires WellKeyed(value)
    ensures flat.Some? <==> IsBranch(value)
    ensures flat.Some? ==>
              forall path | path in Leaves(value) :: Join(path) in flat.value && flat.value[Join(path)] == Leaves(value)[path]
    ensures flat.Some? ==> forall name | name in flat.value :: exists path :: path in Leaves(value) && Join(path) == name
  {
    if !IsBranch(value) then None else
      JoinsDistinct(value);
      var leaves := Leaves(value);
      Some(map path | path in leaves :: Join(path) := leaves[path])
  }

  lemma JoinsDistinct(value: Json)
    requires WellKeyed(value)
    ensures forall p, q | p in Leaves(value) && q in Leaves(value) && Join(p) == Join(q) :: p == q
  {
    forall p, q | p in Leaves(value) && q in Leaves(value) && Join(p) == Join(q) ensures p == q {
      LeafPathsArePlain(value, p);
      LeafPathsArePlain(value, q);
      JoinInjective(p, q);
    }
  }

  lemma {:induction false} LeafPathsArePlain(value: Json, path: seq<string>)
    requires WellKeyed(value) && path in LeafPaths(value)
    ensures PlainPath(path)
    ensures path == [] <==> !IsBranch(value)
  {
    if IsBranch(value) {
      var key, rest :| key in value.fields && rest in LeafPaths(value.fields[key]) && path == [key] + rest;
      LeafPathsArePlain(value.fields[key], rest);
    }
  }

  function FirstDot(s: string): nat {
    if s == "" || s[0] == '.' then 0 else 1 + FirstDot(s[1..])
  }

  lemma {:induction false} FirstDotAfter(key: string, rest: string)
    requires '.' !in key && (rest == "" || rest[0] == '.')
    ensures FirstDot(key + rest) == |key|
  {
    if key == "" {
      assert key + rest == rest;
    } else {
      assert (key + rest)[1..] == key[1..] + rest;
      FirstDotAfter(key[1..], rest);
    }
  }

  /** The first key of a dotted path ends at its first dot. */
  lemma JoinHead(path: seq<string>)
    requires PlainPath(path) && path != []
    ensures Join(path) != "" && FirstDot(Join(path)) == |path[0]| <= |Join(path)|
    ensures path[0] == Join(path)[..FirstDot(Join(path))]
    ensures |path| == 1 <==> |path[0]| == |Join(path)|
    ensures |path| > 1 ==> Join(path[1..]) == Join(path)[|path[0]| + 1..]
  {
    assert PlainKey(path[0]);
    if |path| == 1 {
      FirstDotAfter(path[0], "");
      assert path[0] + "" == path[0];
    } else {
      FirstDotAfter(path[0], "." + Join(path[1..]));
      assert Join(path) == path[0] + ("." + Join(path[1..]));
    }
  }

  /** Dotted paths over plain keys split in one way only. */
  lemma {:induction false} JoinInjective(p: seq<string>, q: seq<string>)
    requires PlainPath(p) && PlainPath(q) && Join(p) == Join(q)
    ensures p == q
  {
    if p != [] { JoinHead(p); }
    if q != [] { JoinHead(q); }
    if |p| > 1 && |q| > 1 {
      JoinInjective(p[1..], q[1..]);
      assert p == [p[0]] + p[1..] && q == [q[0]] + q[1..];
    }
  }

  lemma {:induction false} LeafPathsNonEmpty(value: Json)
    ensures LeafPaths(value) != {}
  {
    if IsBranch(value) {
      var key :| key in value.fields;
      LeafPathsNonEmpty(value.fields[key]);
      var rest :| rest in LeafPaths(value.fields[key]);
      assert [key] + rest in LeafPaths(value);
    }
  }

  /** The keys of an object are the first steps of its leaf paths, and below a key the paths and leaves are the child's. */
  lemma LeavesBelow(value: Json, key: string)
    requires IsBranch(value)
    ensures key in value.fields <==> exists rest :: [key] + rest in Leaves(value)
    ensures key in value.fields ==>
              forall rest :: rest in LeafPaths(value.fields[key]) <==> [key] + rest in LeafPaths(value)
    ensures key in value.fields ==>
              forall rest | rest in LeafPaths(value.fields[key]) ::
                LeafAt(value.fields[key], rest) == Leaves(value)[[key] + rest]
  {
    forall rest | [key] + rest in LeafPaths(value)
      ensures key in value.fields && rest in LeafPaths(value.fields[key])
      ensures LeafAt(value.fields[key], rest) == Leaves(value)[[key] + rest]
    {
      var path := [key] + rest;
      var k, r :| k in value.fields && r in LeafPaths(value.fields[k]) && path == [k] + r;
      assert k == path[0] == key && r == path[1..] == rest;
    }
    if key in value.fields {
      LeafPathsNonEmpty(value.fields[key]);
      var rest :| rest in LeafPaths(value.fields[key]);
      assert [key] + rest in Leaves(value);
    }
  }

  /** Equal leaves below every key of equal leaves. */
  lemma LeavesOfChild(a: Json, b: Json, key: string)
    requires IsBranch(a) && IsBranch(b) && Leaves(a) == Leaves(b)
    ensures key in a.fields <==> key in b.fields
    ensures key in a.fields ==> Leaves(a.fields[key]) == Leaves(b.fields[key])
  {
    hide Leaves, LeafPaths, LeafAt;
    LeavesBelow(a, key);
    LeavesBelow(b, key);
    LeavesByPath(a);
    LeavesByPath(b);
    if key in a.fields {
      var x, y := a.fields[key], b.fields[key];
      LeavesByPath(x);
      LeavesByPath(y);
      forall rest ensures rest in Leaves(x) <==> rest in Leaves(y) {
        assert [key] + rest in Leaves(a) <==> [key] + rest in Leaves(b);
      }
      assert Leaves(x).Keys == Leaves(y).Keys;
      assert forall rest | rest in Leaves(x) :: Leaves(x)[rest] == Leaves(a)[[key] + rest];
      assert forall rest | rest in Leaves(y) :: Leaves(y)[rest] == Leaves(b)[[key] + rest];
    }
  }

  lemma BranchesShow(a: Json, b: Json)
    requires WellKeyed(a) && WellKeyed(b) && Leaves(a) == Leaves(b)
    ensures IsBranch(a) <==> IsBranch(b)
  {
    LeafPathsNonEmpty(a);
    LeavesByPath(a);
    LeavesByPath(b);
    var p :| p in LeafPaths(a);
    LeafPathsArePlain(a, p);
    LeafPathsArePlain(b, p);
  }

  lemma {:induction false} LeavesInjective(a: Json, b: Json)
    requires WellKeyed(a) && WellKeyed(b) && Leaves(a) == Leaves(b)
    ensures a == b
    decreases a
  {
    BranchesShow(a, b);
    if !IsBranch(a) {
      assert [] in Leaves(a) && Leaves(a)[[]] == a;
      assert [] in Leaves(b) && Leaves(b)[[]] == b;
    } else {
      forall key ensures key in a.fields <==> key in b.fields {
        LeavesOfChild(a, b, key);
      }
      forall key | key in a.fields ensures a.fields[key] == b.fields[key] {
        LeavesOfChild(a, b, key);
        LeavesInjective(a.fields[key], b.fields[key]);
      }
      assert a.fields == b.fields;
    }
  }

  lemma LeavesByPath(value: Json)
    ensures Leaves(value).Keys == LeafPaths(value)
    ensures forall path | path in LeafPaths(value) :: Leaves(value)[path] == LeafAt(value, path)
  {
  }

  /** Two well-keyed snapshots that flatten to the same map are the same snapshot. */
  lemma FlattenInjective(a: Json, b: Json)
    requires WellKeyed(a) && WellKeyed(b)
    requires Flatten(a).Some? && Flatten(a) == Flatten(b)
    ensures a == b
  {
    FlattenCoversLeaves(a, b);
    FlattenCoversLeaves(b, a);
    assert Leaves(a) == Leaves(b);
    LeavesInjective(a, b);
  }

  lemma FlattenCoversLeaves(a: Json, b: Json)
    requires WellKeyed(a) && WellKeyed(b)
    requires Flatten(a).Some? && Flatten(a) == Flatten(b)
    ensures forall path | path in Leaves(a) :: path in Leaves(b) && Leaves(a)[path] == Leaves(b)[path]
  {
    var flat := Flatten(a).value;
    forall path | path in Leaves(a) ensures path in Leaves(b) && Leaves(a)[path] == Leaves(b)[path] {
      assert Join(path) in flat;
      var other :| other in Leaves(b) && Join(other) == Join(path);
      LeafPathsArePlain(a, path);
      LeafPathsArePlain(b, other);
      JoinInjective(path, other);
    }
  }

  /** With a dotted key the promise is lost: two different objects have the same dotted leaf. */
  lemma DottedKeysCollide()
    ensures var nested, dotted := JObj(map["a" := JObj(map["b" := JNull])]), JObj(map["a.b" := JNull]);
            nested != dotted && ["a", "b"] in LeafPaths(nested) && ["a.b"] in LeafPaths(dotted)
            && Join(["a", "b"]) == Join(["a.b"])
  {
    var inner := JObj(map["b" := JNull]);
    assert [] in LeafPaths(JNull) && "b" in inner.fields;
    assert ["b"] + [] == ["b"] && ["b"] in LeafPaths(inner);
    var nested := JObj(map["a" := inner]);
    assert "a" in nested.fields;
    assert ["a"] + ["b"] == ["a", "b"] && ["a", "b"] in LeafPaths(nested);
    var dotted := JObj(map["a.b" := JNull]);
    assert "a.b" in dotted.fields;
    assert ["a.b"] + [] == ["a.b"] && ["a.b"] in LeafPaths(dotted);
    assert Join(["b"]) == "b";
    assert ["a", "b"][1..] == ["b"];
    assert "a" + "." + "b" == "a.b";
  }

  // --------------------------------------------------------------------- rules

  datatype Pattern = Sha256Hex | VerifyDigest | NonemptyString | U64Decimal | Boolean

  datatype Rule =
    | Equals(expected: Json)
    | Changed
    | IntegerDelta(delta: int)
    | Matches(pattern: Pattern, mustChange: bool)

  const MAX_SAFE_INTEGER: int := 9007199254740991
  const MAX_U64: int := 18446744073709551615

  predicate Digits(s: string) {
    forall i | 0 <= i < |s| :: '0' <= s[i] <= '9'
  }

  predicate Hex(s: string) {
    forall i | 0 <= i < |s| :: '0' <= s[i] <= '9' || 'a' <= s[i] <= 'f'
  }

  predicate IsSha256(s: string) {
    |s| == 64 && Hex(s)
  }

  /** 64 hex digits, or `sha256-v1:<64 hex>:<hex+>:<hex*>`. */
  predicate IsVerifyDigest(s: string) {
    || IsSha256(s)
    || (|s| > 75 && s[..10] == "sha256-v1:" && Hex(s[10..74]) && s[74] == ':'
        && exists i | 76 <= i < |s| :: s[i] == ':' && Hex(s[75..i]) && Hex(s[i + 1..]))
  }

  /** `0` or a digit string without leading zero. */
  predicate IsDecimal(s: string) {
    s != "" && Digits(s) && (s[0] == '0' ==> |s| == 1)
  }

  function DecimalValue(s: string): (n: nat)
    requires Digits(s)
  {
    if s == "" then 0 else 10 * DecimalValue(s[..|s| - 1]) + (s[|s| - 1] as int - '0' as int)
  }

  function Decimal(n: nat): (s: string)
    ensures IsDecimal(s) && DecimalValue(s) == n
  {
    if n < 10 then
      [('0' as int + n) as char]
    else
      var s := Decimal(n / 10) + [('0' as int + n % 10) as char];
      assert s[..|s| - 1] == Decimal(n / 10);
      s
  }

  function DecimalInteger(value: Json): (n: Option<int>) {
    match value
    case JNum(n) => if -MAX_SAFE_INTEGER <= n <= MAX_SAFE_INTEGER then Some(n) else None
    case JStr(s) =>
      if IsDecimal(s) then Some(DecimalValue(s) as int)
      else if s != "" && s[0] == '-' && IsDecimal(s[1..]) then Some(0 - DecimalValue(s[1..]) as int)
      else None
    case _ => None
  }

  predicate MatchesPattern(value: Json, pattern: Pattern) {
    if pattern.Boolean? then value.JBool?
    else value.JStr? && match pattern
      case Sha256Hex => IsSha256(value.text)
      case VerifyDigest => IsVerifyDigest(value.text)
      case NonemptyString => 1 <= |value.text| <= 512
      case U64Decimal => IsDecimal(value.text) && DecimalValue(value.text) <= MAX_U64
      case Boolean => false
  }

  /** One round of the loop in `rulesMatch`. The key type is the dotted path, or a closed set of field names. */
  predicate PathMatches<K(==)>(before: map<K, Json>, after: map<K, Json>, rules: map<K, Rule>, path: K) {
    if path !in rules then
      path in before && path in after && before[path] == after[path]
    else
      && path in after
      && match rules[path]
         case Equals(expected) => after[path] == expected
         case Changed => path in before && before[path] != after[path]
         case IntegerDelta(delta) =>
           && path in before
           && var left, right := DecimalInteger(before[path]), DecimalInteger(after[path]);
              left.Some? && right.Some? && right.value - left.value == delta
         case Matches(pattern, mustChange) =>
           && MatchesPattern(after[path], pattern)
           && (mustChange ==> path in before && before[path] != after[path])
  }

  predicate RulesMatch<K(==)>(before: map<K, Json>, after: map<K, Json>, rules: map<K, Rule>) {
    && (forall path | path in before.Keys + after.Keys :: PathMatches(before, after, rules, path))
    && (forall path | path in rules :: path in after)
  }

  // ------------------------------------------------------------------ the same, as a program

  /** `^[0-9a-f]*$`, by character codes. */
  method ReadHex(s: string) returns (ok: bool)
    ensures ok <==> Hex(s)
  {
    for i := 0 to |s|
      invariant forall k | 0 <= k < i :: '0' <= s[k] <= '9' || 'a' <= s[k] <= 'f'
    {
      var code := s[i] as int;
      if code < 48 || (57 < code && code < 97) || 102 < code { return false; }
    }
    ok := true;
  }

  /** The pattern of a verification digest, read from left to right. */
  method ReadVerifyDigest(s: string) returns (ok: bool)
    ensures ok <==> IsVerifyDigest(s)
  {
    if |s| == 64 {
      ok := ReadHex(s);
      return;
    }
    if |s| < 77 || s[..10] != ['s', 'h', 'a', '2', '5', '6', '-', 'v', '1', ':'] || s[74] != ':' { return false; }
    ok := ReadHex(s[10..74]);
    if !ok { return; }
    var colon := 75;
    while colon < |s| && s[colon] != ':'
      invariant 75 <= colon <= |s|
      invariant forall k | 75 <= k < colon :: s[k] != ':'
    {
      colon := colon + 1;
    }
    if colon == 75 || colon == |s| { OnlyColon(s, colon); return false; }
    ok := ReadHex(s[75..colon]);
    OnlyColon(s, colon);
    if !ok { return; }
    ok := ReadHex(s[colon + 1..]);
  }

  /** No colon is a hex digit, so only the first can end the first run of digits. */
  lemma OnlyColon(s: string, colon: nat)
    requires 75 <= colon <= |s| && (forall k | 75 <= k < colon :: s[k] != ':') && (colon < |s| ==> s[colon] == ':')
    ensures forall i | 76 <= i < |s| && s[i] == ':' && Hex(s[75..i]) :: i == colon
  {
    forall i | 76 <= i < |s| && s[i] == ':' && Hex(s[75..i]) ensures i == colon {
      var run := s[75..i];
      assert forall k | 75 <= k < i :: run[k - 75] == s[k];
    }
  }

  /** `decimalInteger` */
  method ReadDecimalInteger(value: Json) returns (n: Option<int>)
    ensures n == DecimalInteger(value)
  {
    if value.JNum? {
      return if value.num < -9007199254740991 || 9007199254740991 < value.num then None else Some(value.num);
    }
    if !value.JStr? || value.text == "" { return None; }
    var negative := value.text[0] == '-';
    var digits := if negative then value.text[1..] else value.text;
    assert negative ==> !IsDecimal(value.text);
    hide IsDecimal;
    var total := ReadDecimal(digits);
    if total.None? { return None; }
    var signed: int := if negative then 0 - total.value as int else total.value;
    n := Some(signed);
  }

  method ReadDecimal(digits: string) returns (n: Option<nat>)
    ensures n.Some? <==> IsDecimal(digits)
    ensures n.Some? ==> n.value == DecimalValue(digits)
  {
    if digits == "" || (digits[0] == '0' && |digits| > 1) { return None; }
    var total: nat := 0;
    for i := 0 to |digits|
      invariant Digits(digits[..i]) && total == DecimalValue(digits[..i])
    {
      assert digits[..i + 1][..i] == digits[..i];
      if digits[i] < '0' || '9' < digits[i] { return None; }
      total := 10 * total + (digits[i] as int - 48);
    }
    assert digits[..|digits|] == digits;
    n := Some(total);
  }

  /** `matchesRulePattern` */
  method ReadPattern(value: Json, pattern: Pattern) returns (ok: bool)
    ensures ok <==> MatchesPattern(value, pattern)
  {
    if pattern == Boolean { return value.JBool?; }
    if !value.JStr? { return false; }
    if pattern == Sha256Hex {
      ok := ReadHex(value.text);
      ok := ok && |value.text| == 64;
    } else if pattern == VerifyDigest {
      ok := ReadVerifyDigest(value.text);
    } else if pattern == NonemptyString {
      ok := |value.text| >= 1 && |value.text| <= 512;
    } else {
      var n := ReadDecimalInteger(value);
      ok := n.Some? && 0 <= n.value <= 0xffff_ffff_ffff_ffff && value.text[0] != '-';
    }
  }

  /** `rulesMatch`, on two flattened snapshots: a loop over all paths of either. */
  method MatchRules<K(==)>(before: map<K, Json>, after: map<K, Json>, rules: map<K, Rule>) returns (ok: bool)
    ensures ok <==> RulesMatch(before, after, rules)
  {
    hide DecimalInteger, MatchesPattern;
    var paths := before.Keys + after.Keys;
    while paths != {}
      invariant paths <= before.Keys + after.Keys
      invariant forall path | path in before.Keys + after.Keys && path !in paths :: PathMatches(before, after, rules, path)
      decreases |paths|
    {
      var path :| path in paths;
      paths := paths - {path};
      ok := MatchPath(before, after, rules, path);
      if !ok { return; }
    }
    ok := forall path | path in rules :: path in after;
  }

  /** One path of that loop. */
  method MatchPath<K(==)>(before: map<K, Json>, after: map<K, Json>, rules: map<K, Rule>, path: K) returns (ok: bool)
    ensures ok <==> PathMatches(before, after, rules, path)
  {
    hide DecimalInteger, MatchesPattern;
    if path !in rules {
      return path in before && path in after && before[path] == after[path];
    }
    if path !in after { return false; }
    match rules[path] {
      case Equals(expected) => return after[path] == expected;
      case Changed => return path in before && before[path] != after[path];
      case IntegerDelta(delta) =>
        if path !in before { return false; }
        var left := ReadDecimalInteger(before[path]);
        var right := ReadDecimalInteger(after[path]);
        return left.Some? && right.Some? && left.value + delta == right.value;
      case Matches(pattern, mustChange) =>
        ok := ReadPattern(after[path], pattern);
        if ok && mustChange { ok := path in before && before[path] != after[path]; }
    }
  }

  datatype Snapshot = Snapshot(status: Json, audit: Json)
  datatype Predicate = Predicate(statusRules: map<string, Rule>, auditRules: map<string, Rule>)

  predicate ValueMatches(before: Json, after: Json, rules: map<string, Rule>) {
    && WellKeyed(before) && WellKeyed(after)
    && Flatten(before).Some? && Flatten(after).Some?
    && RulesMatch(Flatten(before).value, Flatten(after).value, rules)
  }

  predicate ExpectedAfterMatches(before: Snapshot, after: Snapshot, expected: Predicate) {
    && ValueMatches(before.status, after.status, expected.statusRules)
    && ValueMatches(before.audit, after.audit, expected.auditRules)
  }

  lemma NoRulesMeansEqual<K>(left: map<K, Json>, right: map<K, Json>)
    ensures RulesMatch(left, right, map[]) <==> left == right
  {
    var rules: map<K, Rule> := map[];
    if RulesMatch(left, right, rules) {
      forall path | path in left.Keys + right.Keys
        ensures path in left && path in right && left[path] == right[path]
      {
        assert PathMatches(left, right, rules, path);
      }
      forall path ensures path in left <==> path in right {
        assert path in left || path in right ==> path in left.Keys + right.Keys;
      }
      assert left.Keys == right.Keys;
      assert left == right;
    }
    if left == right {
      assert forall path | path in left.Keys + right.Keys :: PathMatches(left, right, rules, path);
    }
  }

  /** Without rules a predicate accepts exactly the unchanged snapshot. */
  lemma NoRulesMeansUnchanged(before: Json, after: Json)
    requires WellKeyed(before) && WellKeyed(after) && IsBranch(before) && IsBranch(after)
    ensures ValueMatches(before, after, map[]) <==> before == after
  {
    NoRulesMeansEqual(Flatten(before).value, Flatten(after).value);
    if ValueMatches(before, after, map[]) {
      FlattenInjective(before, after);
    }
  }

  function Sum(deltas: seq<int>): int {
    if deltas == [] then 0 else Sum(deltas[..|deltas| - 1]) + deltas[|deltas| - 1]
  }

  /** Successive integer-delta rules on one field act over any run like one rule with their sum. */
  lemma {:induction false} DeltasCompose<K>(run: seq<map<K, Json>>, rules: seq<map<K, Rule>>, path: K, deltas: seq<int>)
    requires |run| == |rules| + 1 && |rules| == |deltas| && 0 < |deltas|
    requires forall i | 0 <= i < |rules| ::
               RulesMatch(run[i], run[i + 1], rules[i]) && path in rules[i] && rules[i][path] == IntegerDelta(deltas[i])
    ensures PathMatches(run[0], run[|deltas|], map[path := IntegerDelta(Sum(deltas))], path)
  {
    var last := |deltas| - 1;
    assert path in run[last].Keys + run[last + 1].Keys;
    assert PathMatches(run[last], run[last + 1], rules[last], path);
    if last == 0 {
      assert deltas[..0] == [];
    } else {
      DeltasCompose(run[..last + 1], rules[..last], path, deltas[..last]);
    }
  }
}
