/**
 The locked dependency closure: a worklist over package keys
 (scripts/greater-realm-production-immutable-artifact.ts, selectedLockedPackages).
 */
module DependencyClosure {
  import opened Wrappers

  type Key = string

  /** One entry of `dependencies` or `optionalDependencies`: its key, and whether name and version are well formed. */
  datatype Edge = Edge(key: Key, wellFormed: bool)

  /** `None` stands for a missing or malformed integrity. */
  datatype PackageRecord = PackageRecord(integrity: Option<string>, os: Option<seq<string>>, cpu: Option<seq<string>>)

  datatype Snapshot = Snapshot(dependencies: seq<Edge>, optionalDependencies: seq<Edge>)

  datatype Lock = Lock(packages: map<Key, PackageRecord>, snapshots: map<Key, Snapshot>)

  datatype Runtime = Runtime(platform: string, architecture: string)

  datatype Package = Package(integrity: string, dependencies: seq<Key>)

  ghost const ROOTS: seq<Key> := ["spacetimedb@2.6.1", "typescript@5.6.3", "esbuild@0.25.12", "tsx@4.20.6"]

  ghost predicate Compatible(record: PackageRecord, runtime: Runtime) {
    && (record.os.Some? ==> record.os.value == [runtime.platform])
    && (record.cpu.Some? ==> record.cpu.value == [runtime.architecture])
  }

  ghost predicate GoodEdge(lock: Lock, runtime: Runtime, edge: Edge, optional: bool) {
    && edge.wellFormed && edge.key in lock.packages
    && (!optional ==> Compatible(lock.packages[edge.key], runtime))
  }

  ghost predicate Followed(lock: Lock, runtime: Runtime, edge: Edge) {
    edge.key in lock.packages && Compatible(lock.packages[edge.key], runtime)
  }

  /** The record, the integrity and the snapshot of `key` are there, and none of its edges is refused. */
  ghost predicate Good(lock: Lock, runtime: Runtime, key: Key) {
    && key in lock.packages && lock.packages[key].integrity.Some?
    && key in lock.snapshots
    && (forall edge | edge in lock.snapshots[key].dependencies :: GoodEdge(lock, runtime, edge, false))
    && (forall edge | edge in lock.snapshots[key].optionalDependencies :: GoodEdge(lock, runtime, edge, true))
  }

  /** The edges of one package that are followed; an incompatible optional one is passed over. */
  ghost predicate DependsOn(lock: Lock, runtime: Runtime, key: Key, dependency: Key) {
    && key in lock.snapshots
    && exists edge ::
         && (edge in lock.snapshots[key].dependencies || edge in lock.snapshots[key].optionalDependencies)
         && edge.key == dependency && Followed(lock, runtime, edge)
  }

  ghost predicate Follows(lock: Lock, runtime: Runtime, key: Key, dependency: Key) {
    Good(lock, runtime, key) && DependsOn(lock, runtime, key, dependency)
  }

  /** A path from a root along followed edges of good packages. */
  ghost predicate IsPath(lock: Lock, runtime: Runtime, path: seq<Key>) {
    && path != [] && path[0] in ROOTS
    && forall i | 0 <= i < |path| - 1 :: Follows(lock, runtime, path[i], path[i + 1])
  }

  ghost predicate Reachable(lock: Lock, runtime: Runtime, key: Key) {
    exists path :: IsPath(lock, runtime, path) && path[|path| - 1] == key
  }

  lemma RootIsReachable(lock: Lock, runtime: Runtime, key: Key)
    requires key in ROOTS
    ensures Reachable(lock, runtime, key)
  {
    assert IsPath(lock, runtime, [key]);
  }

  lemma DependencyIsReachable(lock: Lock, runtime: Runtime, key: Key, dependency: Key)
    requires Reachable(lock, runtime, key) && Good(lock, runtime, key) && DependsOn(lock, runtime, key, dependency)
    ensures Reachable(lock, runtime, dependency)
  {
    hide Good, DependsOn;
    assert Follows(lock, runtime, key, dependency);
    var path :| IsPath(lock, runtime, path) && path[|path| - 1] == key;
    var longer := path + [dependency];
    hide Follows;
    forall i | 0 <= i < |longer| - 1 ensures Follows(lock, runtime, longer[i], longer[i + 1]) {
      if i < |path| - 1 {
        assert Follows(lock, runtime, path[i], path[i + 1]);
      }
    }
    assert IsPath(lock, runtime, longer);
  }

  /** A set that holds the roots and is closed under followed edges holds everything reachable. */
  lemma {:induction false} ClosedHoldsPath(lock: Lock, runtime: Runtime, closed: set<Key>, path: seq<Key>)
    requires forall root | root in ROOTS :: root in closed
    requires forall key, dependency | key in closed && DependsOn(lock, runtime, key, dependency) :: dependency in closed
    requires IsPath(lock, runtime, path)
    ensures path[|path| - 1] in closed
  {
    if |path| > 1 {
      var shorter := path[..|path| - 1];
      forall i | 0 <= i < |shorter| - 1 ensures Follows(lock, runtime, shorter[i], shorter[i + 1]) {
        assert Follows(lock, runtime, path[i], path[i + 1]);
      }
      ClosedHoldsPath(lock, runtime, closed, shorter);
      assert Follows(lock, runtime, path[|path| - 2], path[|path| - 2 + 1]);
    }
  }

  /** The followed keys of one field, in the order of its entries. */
  ghost function FollowedKeys(lock: Lock, runtime: Runtime, edges: seq<Edge>): (keys: seq<Key>)
    ensures forall key :: key in keys <==> exists edge :: edge in edges && edge.key == key && Followed(lock, runtime, edge)
  {
    if edges == [] then [] else
    var last := edges[|edges| - 1];
    FollowedKeys(lock, runtime, edges[..|edges| - 1]) + if Followed(lock, runtime, last) then [last.key] else []
  }

  /** The keys pushed for one field of a snapshot; `None` if an edge is refused. */
  method ReadField(lock: Lock, runtime: Runtime, edges: seq<Edge>, optional: bool) returns (keys: Option<seq<Key>>)
    ensures keys.Some? <==> forall edge | edge in edges :: GoodEdge(lock, runtime, edge, optional)
    ensures keys.Some? ==> keys.value == FollowedKeys(lock, runtime, edges)
  {
    var found: seq<Key> := [];
    for i := 0 to |edges|
      invariant forall j | 0 <= j < i :: GoodEdge(lock, runtime, edges[j], optional)
      invariant found == FollowedKeys(lock, runtime, edges[..i])
    {
      assert edges[..i + 1][..i] == edges[..i];
      var edge := edges[i];
      assert edge in edges;
      if !edge.wellFormed || edge.key !in lock.packages { return None; }
      var record := lock.packages[edge.key];
      var compatible :=
        && (record.os.None? || (|record.os.value| == 1 && record.os.value[0] == runtime.platform))
        && (record.cpu.None? || (|record.cpu.value| == 1 && record.cpu.value[0] == runtime.architecture));
      if compatible {
        found := found + [edge.key];
      } else if !optional {
        return None;
      }
    }
    assert edges[..|edges|] == edges;
    keys := Some(found);
  }

  /** `selectedLockedPackages`: all and only what is reachable, or a refusal because something reachable is bad. */
  method SelectedLockedPackages(lock: Lock, runtime: Runtime) returns (selected: Option<map<Key, Package>>)
    ensures selected.Some? <==> forall key | Reachable(lock, runtime, key) :: Good(lock, runtime, key)
    ensures selected.Some? ==> forall key :: key in selected.value <==> Reachable(lock, runtime, key)
    ensures selected.Some? ==> forall key | key in selected.value ::
              && Reads(lock, runtime, key, selected.value[key])
              && (forall dependency :: dependency in selected.value[key].dependencies <==> DependsOn(lock, runtime, key, dependency))
              && (forall dependency | dependency in selected.value[key].dependencies :: dependency in selected.value)
  {
    hide Compatible, Reachable, DependsOn, Followed, Good, Reads, FollowedKeys;
    var pending: seq<Key> := ["spacetimedb@2.6.1", "typescript@5.6.3", "esbuild@0.25.12", "tsx@4.20.6"];
    var chosen: map<Key, Package> := map[];
    forall root | root in ROOTS ensures Reachable(lock, runtime, root) { RootIsReachable(lock, runtime, root); }
    while pending != []
      invariant chosen.Keys <= lock.packages.Keys
      invariant forall key | key in pending :: Reachable(lock, runtime, key)
      invariant forall key | key in chosen :: Reachable(lock, runtime, key) && Good(lock, runtime, key) && Reads(lock, runtime, key, chosen[key])
      invariant forall root | root in ROOTS :: root in pending || root in chosen
      invariant forall key, dependency | key in chosen && DependsOn(lock, runtime, key, dependency) ::
                  dependency in pending || dependency in chosen
      decreases lock.packages.Keys - chosen.Keys, |pending|
    {
      var key := pending[|pending| - 1];
      var rest := pending[..|pending| - 1];
      assert forall k | k in pending :: k in rest || k == key;
      if key in chosen {
        pending := rest;
      } else {
        var package := ReadPackage(lock, runtime, key);
        if package.None? { return None; }
        forall dependency | DependsOn(lock, runtime, key, dependency) ensures Reachable(lock, runtime, dependency) {
          DependencyIsReachable(lock, runtime, key, dependency);
        }
        assert key in lock.packages by { GoodIsRecorded(lock, runtime, key); }
        assert key in lock.packages.Keys - chosen.Keys;
        pending := rest + package.value.dependencies;
        chosen := chosen[key := package.value];
      }
    }
    forall key | Reachable(lock, runtime, key) ensures key in chosen {
      ClosureHolds(lock, runtime, chosen.Keys, key);
    }
    forall key | key in chosen
      ensures forall dependency :: dependency in chosen[key].dependencies <==> DependsOn(lock, runtime, key, dependency)
    {
      ReadsItsEdges(lock, runtime, key, chosen[key]);
    }
    selected := Some(chosen);
  }

  lemma ClosureHolds(lock: Lock, runtime: Runtime, closed: set<Key>, key: Key)
    requires forall root | root in ROOTS :: root in closed
    requires forall key, dependency | key in closed && DependsOn(lock, runtime, key, dependency) :: dependency in closed
    requires Reachable(lock, runtime, key)
    ensures key in closed
  {
    var path :| IsPath(lock, runtime, path) && path[|path| - 1] == key;
    ClosedHoldsPath(lock, runtime, closed, path);
  }

  lemma GoodIsRecorded(lock: Lock, runtime: Runtime, key: Key)
    requires Good(lock, runtime, key)
    ensures key in lock.packages && lock.packages[key].integrity.Some?
  {
  }

  /** The selected entry records the integrity and the followed edges, required before optional. */
  ghost predicate Reads(lock: Lock, runtime: Runtime, key: Key, package: Package) {
    && key in lock.packages && lock.packages[key].integrity == Some(package.integrity)
    && key in lock.snapshots
    && package.dependencies
       == FollowedKeys(lock, runtime, lock.snapshots[key].dependencies)
          + FollowedKeys(lock, runtime, lock.snapshots[key].optionalDependencies)
  }

  lemma ReadsItsEdges(lock: Lock, runtime: Runtime, key: Key, package: Package)
    requires Reads(lock, runtime, key, package)
    ensures forall dependency :: dependency in package.dependencies <==> DependsOn(lock, runtime, key, dependency)
  {
    hide Followed;
  }

  method ReadPackage(lock: Lock, runtime: Runtime, key: Key) returns (package: Option<Package>)
    ensures package.Some? <==> Good(lock, runtime, key)
    ensures package.Some? ==> Reads(lock, runtime, key, package.value)
    ensures package.Some? ==> forall dependency :: dependency in package.value.dependencies <==> DependsOn(lock, runtime, key, dependency)
  {
    hide GoodEdge, Followed;
    if key !in lock.packages || lock.packages[key].integrity.None? || key !in lock.snapshots { return None; }
    var required := ReadField(lock, runtime, lock.snapshots[key].dependencies, false);
    if required.None? { return None; }
    var optional := ReadField(lock, runtime, lock.snapshots[key].optionalDependencies, true);
    if optional.None? { return None; }
    package := Some(Package(lock.packages[key].integrity.value, required.value + optional.value));
    ReadsItsEdges(lock, runtime, key, package.value);
  }

  // ------------------------------------------------------------------ independent of order

  ghost predicate SameUpToOrder(x: Lock, y: Lock) {
    && x.packages == y.packages && x.snapshots.Keys == y.snapshots.Keys
    && forall key | key in x.snapshots ::
         && multiset(x.snapshots[key].dependencies) == multiset(y.snapshots[key].dependencies)
         && multiset(x.snapshots[key].optionalDependencies) == multiset(y.snapshots[key].optionalDependencies)
  }

  lemma SameEdges(x: seq<Edge>, y: seq<Edge>)
    requires multiset(x) == multiset(y)
    ensures forall edge :: edge in x <==> edge in y
  {
    forall edge ensures edge in x <==> edge in y {
      assert edge in multiset(x) <==> edge in multiset(y);
    }
  }

  lemma SameAtKey(x: Lock, y: Lock, runtime: Runtime, key: Key)
    requires SameUpToOrder(x, y)
    ensures Good(x, runtime, key) <==> Good(y, runtime, key)
    ensures forall dependency :: DependsOn(x, runtime, key, dependency) <==> DependsOn(y, runtime, key, dependency)
  {
    hide Compatible;
    if key in x.snapshots {
      SameEdges(x.snapshots[key].dependencies, y.snapshots[key].dependencies);
      SameEdges(x.snapshots[key].optionalDependencies, y.snapshots[key].optionalDependencies);
    }
  }

  lemma PathStays(x: Lock, y: Lock, runtime: Runtime, path: seq<Key>)
    requires SameUpToOrder(x, y) && IsPath(x, runtime, path)
    ensures IsPath(y, runtime, path)
  {
    hide SameUpToOrder, Good, DependsOn;
    forall i | 0 <= i < |path| - 1 ensures Follows(y, runtime, path[i], path[i + 1]) {
      SameAtKey(x, y, runtime, path[i]);
      assert Follows(x, runtime, path[i], path[i + 1]);
    }
  }

  /** Reordering the edges of a lock changes neither what is reachable nor whether it is refused. */
  lemma ClosureIgnoresEdgeOrder(x: Lock, y: Lock, runtime: Runtime, key: Key)
    requires SameUpToOrder(x, y)
    ensures Reachable(x, runtime, key) <==> Reachable(y, runtime, key)
    ensures Good(x, runtime, key) <==> Good(y, runtime, key)
    ensures forall dependency :: DependsOn(x, runtime, key, dependency) <==> DependsOn(y, runtime, key, dependency)
  {
    SameAtKey(x, y, runtime, key);
    hide Good, DependsOn, IsPath;
    if Reachable(x, runtime, key) {
      var path :| IsPath(x, runtime, path) && path[|path| - 1] == key;
      PathStays(x, y, runtime, path);
    }
    if Reachable(y, runtime, key) {
      var path :| IsPath(y, runtime, path) && path[|path| - 1] == key;
      assert SameUpToOrder(y, x);
      PathStays(y, x, runtime, path);
    }
  }
}
