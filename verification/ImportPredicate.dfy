/**
 The import's predicate as the journal evaluates it. `ImportGates` works on field maps; here
 the two projections become snapshots, the rules become rules on dotted paths, and the two
 readings are shown to be one (scripts/greater-realm-production-import-core.ts and
 scripts/greater-realm-cutover-operation-journal.ts).
 */
module ImportPredicate {
  import opened Wrappers
  import opened SnapshotRules
  import opened ImportModel
  import opened ImportGates
  import JournalMachine
  import JournalProgram
  import JournalRecords

  /** The property names of a projection: plain, and different for different fields. */
  ghost predicate Names<K(!new)>(name: K -> string) {
    && (forall k :: PlainKey(name(k)))
    && (forall j, k :: name(j) == name(k) ==> j == k)
  }

  ghost function Renamed<K(!new), V>(values: map<K, V>, name: K -> string): (renamed: map<string, V>)
    requires Names(name)
    ensures forall k :: name(k) in renamed <==> k in values
    ensures forall k | k in values :: renamed[name(k)] == values[k]
    ensures forall text | text in renamed :: exists k :: k in values && name(k) == text
  {
    map k | k in values :: name(k) := values[k]
  }

  lemma PathRenamed<K(!new)>(before: map<K, Json>, after: map<K, Json>, rules: map<K, Rule>, name: K -> string, k: K)
    requires Names(name)
    ensures PathMatches(before, after, rules, k)
       <==> PathMatches(Renamed(before, name), Renamed(after, name), Renamed(rules, name), name(k))
  {
    hide Renamed, DecimalInteger, MatchesPattern;
  }

  /** Rules do not care what fields are called. */
  lemma RulesRenamed<K(!new)>(before: map<K, Json>, after: map<K, Json>, rules: map<K, Rule>, name: K -> string)
    requires Names(name)
    ensures RulesMatch(before, after, rules)
       <==> RulesMatch(Renamed(before, name), Renamed(after, name), Renamed(rules, name))
  {
    hide PathMatches, Renamed;
    var b, a, r := Renamed(before, name), Renamed(after, name), Renamed(rules, name);
    if RulesMatch(before, after, rules) {
      forall text | text in b.Keys + a.Keys ensures PathMatches(b, a, r, text) {
        var k :| (k in before || k in after) && name(k) == text;
        PathRenamed(before, after, rules, name, k);
        assert k in before.Keys + after.Keys;
      }
    }
    if RulesMatch(b, a, r) {
      forall k | k in before.Keys + after.Keys ensures PathMatches(before, after, rules, k) {
        PathRenamed(before, after, rules, name, k);
        assert name(k) in b.Keys + a.Keys;
      }
      forall k | k in rules ensures k in after { assert name(k) in r; }
    }
  }

  predicate AllLeaves(fields: map<string, Json>) {
    forall key | key in fields :: PlainKey(key) && !IsBranch(fields[key])
  }

  /** An object of leaves flattens to itself. */
  lemma FlatAlready(fields: map<string, Json>)
    requires AllLeaves(fields) && fields != map[]
    ensures WellKeyed(JObj(fields)) && IsBranch(JObj(fields))
    ensures Flatten(JObj(fields)) == Some(fields)
  {
    hide Leaves, LeafPaths, Join;
    var value := JObj(fields);
    assert WellKeyed(value) && IsBranch(value);
    var flat := Flatten(value).value;
    hide WellKeyed, Flatten;
    forall key | key in fields ensures key in flat && flat[key] == fields[key] {
      LeafOfField(fields, key);
    }
    forall text | text in flat ensures text in fields {
      var path :| path in Leaves(value) && Join(path) == text;
      FieldOfLeaf(fields, path);
    }
    assert flat == fields;
  }

  lemma LeafOfField(fields: map<string, Json>, key: string)
    requires AllLeaves(fields) && key in fields
    ensures [key] in Leaves(JObj(fields)) && Leaves(JObj(fields))[[key]] == fields[key] && Join([key]) == key
  {
    LeavesBelow(JObj(fields), key);
    assert [] in LeafPaths(fields[key]) && [key] + [] == [key];
  }

  lemma FieldOfLeaf(fields: map<string, Json>, path: seq<string>)
    requires AllLeaves(fields) && path in Leaves(JObj(fields)) && fields != map[]
    ensures |path| == 1 && path[0] in fields && Join(path) == path[0]
  {
    var key, rest :| key in fields && rest in LeafPaths(fields[key]) && path == [key] + rest;
    assert rest == [];
  }

  /** Every value the projections hold is a leaf: a boolean, a number, a string or nothing. */
  predicate Flat(o: Observation) {
    forall name | name in o.cutover.others :: !IsBranch(o.cutover.others[name])
  }

  ghost function SnapshotOf(o: Observation, statusName: StatusField -> string, auditName: AuditField -> string): Snapshot
    requires Names(statusName) && Names(auditName)
  {
    Snapshot(JObj(Renamed(StatusMap(o.status), statusName)), JObj(Renamed(AuditMap(o.cutover), auditName)))
  }

  ghost function PredicateOf(rules: Rules, statusName: StatusField -> string, auditName: AuditField -> string): Predicate
    requires Names(statusName) && Names(auditName)
  {
    Predicate(Renamed(rules.status, statusName), Renamed(rules.audit, auditName))
  }

  lemma MapMatches<K(!new)>(before: map<K, Json>, after: map<K, Json>, rules: map<K, Rule>, name: K -> string)
    requires Names(name) && before != map[] && after != map[]
    requires forall k | k in before :: !IsBranch(before[k])
    requires forall k | k in after :: !IsBranch(after[k])
    ensures RulesMatch(before, after, rules)
       <==> ValueMatches(JObj(Renamed(before, name)), JObj(Renamed(after, name)), Renamed(rules, name))
  {
    hide RulesMatch, WellKeyed, Flatten;
    RulesRenamed(before, after, rules, name);
    NotEmpty(before, name);
    NotEmpty(after, name);
    FlatAlready(Renamed(before, name));
    FlatAlready(Renamed(after, name));
  }

  lemma NotEmpty<K(!new)>(values: map<K, Json>, name: K -> string)
    requires Names(name) && values != map[]
    ensures Renamed(values, name) != map[]
  {
    var k :| k in values;
    assert name(k) in Renamed(values, name);
  }

  lemma StatusIsFlat(s: Status)
    ensures StatusMap(s) != map[] && forall field | field in StatusMap(s) :: !IsBranch(StatusMap(s)[field])
  {
    hide StateName, PhaseName, Decimal;
    assert Present in StatusMap(s);
  }

  lemma AuditIsFlat(o: Observation)
    requires Flat(o)
    ensures AuditMap(o.cutover) != map[] && forall field | field in AuditMap(o.cutover) :: !IsBranch(AuditMap(o.cutover)[field])
  {
    hide AuditValue, NamedAuditFields;
    assert AReleaseRows in AuditFields(o.cutover) && AReleaseRows in AuditMap(o.cutover);
    forall field | field in AuditMap(o.cutover) ensures !IsBranch(AuditMap(o.cutover)[field]) {
      AuditLeaf(o, field);
    }
  }

  lemma AuditLeaf(o: Observation, field: AuditField)
    requires Flat(o)
    ensures !IsBranch(AuditValue(o.cutover, field))
  {
    hide StateName, Decimal;
  }

  /** The gate on the field maps is the journal's predicate on the snapshots, whatever the fields are called. */
  lemma GateIsThePredicate(rules: Rules, before: Observation, after: Observation,
                           statusName: StatusField -> string, auditName: AuditField -> string)
    requires Names(statusName) && Names(auditName) && Flat(before) && Flat(after)
    ensures GateHolds(rules, before, after)
       <==> ExpectedAfterMatches(SnapshotOf(before, statusName, auditName), SnapshotOf(after, statusName, auditName),
                                 PredicateOf(rules, statusName, auditName))
  {
    hide RulesMatch, ValueMatches, StatusMap, AuditMap, Names;
    StatusIsFlat(before.status);
    StatusIsFlat(after.status);
    AuditIsFlat(before);
    AuditIsFlat(after);
    MapMatches(StatusMap(before.status), StatusMap(after.status), rules.status, statusName);
    MapMatches(AuditMap(before.cutover), AuditMap(after.cutover), rules.audit, auditName);
  }

  /** Different statuses make different snapshots. */
  lemma SnapshotsDiffer(before: Observation, after: Observation, statusName: StatusField -> string, auditName: AuditField -> string)
    requires Names(statusName) && Names(auditName)
    requires before.status.verificationDigest != after.status.verificationDigest
    ensures SnapshotOf(before, statusName, auditName) != SnapshotOf(after, statusName, auditName)
  {
    hide AuditMap;
    var x, y := StatusMap(before.status), StatusMap(after.status);
    assert x[VerificationDigest] != y[VerificationDigest];
    assert Renamed(x, statusName)[statusName(VerificationDigest)] != Renamed(y, statusName)[statusName(VerificationDigest)];
  }

  /**
   So a chunk that the server imports exactly as the driver's postcondition asks leaves the
   journal in a state no recovery gets past: it shows neither the state before nor one the
   recorded predicate accepts.
   */
  lemma ConformingChunkStopsRecovery(s: JournalMachine.State, chunk: Chunk, before: Observation, after: Observation, a: Authority,
                                     statusName: StatusField -> string, auditName: AuditField -> string,
                                     inspected: Option<JournalRecords.Terminal>, driver: Option<JournalProgram.Driver>)
    requires Names(statusName) && Names(auditName) && Flat(before) && Flat(after)
    requires s.stage.Open? && s.stage.active.Marked?
    requires s.stage.active.draft.before == SnapshotOf(before, statusName, auditName)
    requires s.stage.active.draft.expected == PredicateOf(ExpectedAfter(ImportChunk(chunk), before, a), statusName, auditName)
    requires s.server == SnapshotOf(after, statusName, auditName)
    requires Postcondition(ImportChunk(chunk), before, after, a)
    ensures JournalProgram.Mismatched(s) && JournalProgram.Blocked(s, inspected, driver)
  {
    hide Names, GateHolds, ExpectedAfter, ExpectedAfterMatches, SnapshotOf, PredicateOf, Flat, JournalProgram.RecoveredHistory, JournalProgram.ClosingBy;
    ChunkGatesClash(chunk, before, after, a);
    GateIsThePredicate(ExpectedAfter(ImportChunk(chunk), before, a), before, after, statusName, auditName);
    SnapshotsDiffer(before, after, statusName, auditName);
  }
}
