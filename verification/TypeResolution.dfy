/**
 Resolution of descriptor types: references are replaced by what they name, a reference to a
 type being resolved by a recursion mark (scripts/genesis001-frozen-publisher-core.ts,
 resolveType and tableAbiSurface).
 */
module TypeResolution {
  import opened Wrappers
  import opened SnapshotRules

  /** A resolved value, with recursion marks told apart from what the descriptor holds. */
  datatype Tree =
    | Leaf(value: Json)
    | Items(items: seq<Tree>)
    | Fields(fields: map<string, Tree>)
    | Recursive(index: nat)

  /** The value the resolver returns: a mark is `{ RecursiveRef: index }`. */
  function ToJson(tree: Tree): Json {
    match tree
    case Leaf(value) => value
    case Items(items) => JArr(seq(|items|, i requires 0 <= i < |items| => ToJson(items[i])))
    case Fields(fields) => JObj(map key | key in fields :: ToJson(fields[key]))
    case Recursive(index) => JObj(map["RecursiveRef" := JNum(index)])
  }

  /** `{ Ref: n }` and nothing else. */
  predicate IsReference(value: Json) {
    value.JObj? && value.fields.Keys == {"Ref"} && value.fields["Ref"].JNum?
  }

  function IndexOf(value: Json): int
    requires IsReference(value)
  {
    value.fields["Ref"].num
  }

  function Unvisited(types: seq<Json>, trail: set<nat>): set<nat> {
    set i | 0 <= i < |types| && i !in trail
  }

  /** `resolveType`; `None` is the thrown invalid reference. */
  function Expand(value: Json, types: seq<Json>, trail: set<nat>): Option<Tree>
    decreases |Unvisited(types, trail)|, value
  {
    match value
    case JArr(items) =>
      if forall i | 0 <= i < |items| :: Expand(items[i], types, trail).Some? then
        Some(Items(seq(|items|, i requires 0 <= i < |items| => Expand(items[i], types, trail).value)))
      else None
    case JObj(fields) =>
      if IsReference(value) then
        var index := IndexOf(value);
        if index < 0 || index >= |types| then None
        else if index in trail then Some(Recursive(index))
        else
          VisitingShrinks(types, trail, index);
          Expand(types[index], types, trail + {index})
      else if forall key | key in fields :: Expand(fields[key], types, trail).Some? then
        Some(Fields(map key | key in fields :: Expand(fields[key], types, trail).value))
      else None
    case _ => Some(Leaf(value))
  }

  /** The measure: a type once entered is not entered again below itself. */
  lemma VisitingShrinks(types: seq<Json>, trail: set<nat>, index: nat)
    requires index < |types| && index !in trail
    ensures |Unvisited(types, trail + {index})| < |Unvisited(types, trail)|
  {
    assert Unvisited(types, trail + {index}) == Unvisited(types, trail) - {index};
  }

  function Resolve(value: Json, types: seq<Json>): Option<Json> {
    var tree := Expand(value, types, {});
    if tree.None? then None else Some(ToJson(tree.value))
  }

  // -------------------------------------------------------------- what a resolved type is

  function Reference(index: int): Json {
    JObj(map["Ref" := JNum(index)])
  }

  /** References are these values and no others. */
  lemma ReferencesAre(value: Json)
    ensures IsReference(value) <==> exists index :: value == Reference(index)
    ensures forall index :: IsReference(Reference(index)) && IndexOf(Reference(index)) == index
  {
    forall index ensures IsReference(Reference(index)) && IndexOf(Reference(index)) == index {
      assert Reference(index).fields.Keys == {"Ref"};
    }
    if IsReference(value) {
      assert value.fields == map["Ref" := JNum(IndexOf(value))];
      assert value == Reference(IndexOf(value));
    }
  }

  ghost predicate NoReference(value: Json) {
    match value
    case JArr(items) => forall i | 0 <= i < |items| :: NoReference(items[i])
    case JObj(fields) => !IsReference(value) && forall key | key in fields :: NoReference(fields[key])
    case _ => true
  }

  /** A value without references resolves to itself, over any table. */
  lemma {:induction false} PlainExpands(value: Json, types: seq<Json>, trail: set<nat>)
    requires NoReference(value)
    ensures Expand(value, types, trail).Some? && ToJson(Expand(value, types, trail).value) == value
    decreases value
  {
    match value
    case JArr(items) =>
      forall i | 0 <= i < |items|
        ensures Expand(items[i], types, trail).Some? && ToJson(Expand(items[i], types, trail).value) == items[i]
      {
        PlainExpands(items[i], types, trail);
      }
      assert ToJson(Expand(value, types, trail).value).items == items;
    case JObj(fields) =>
      forall key | key in fields
        ensures Expand(fields[key], types, trail).Some? && ToJson(Expand(fields[key], types, trail).value) == fields[key]
      {
        PlainExpands(fields[key], types, trail);
      }
      assert ToJson(Expand(value, types, trail).value).fields == fields;
    case _ =>
  }

  lemma PlainResolvesToItself(value: Json, types: seq<Json>)
    requires NoReference(value)
    ensures Resolve(value, types) == Some(value)
  {
    PlainExpands(value, types, {});
  }

  /** An array resolves exactly if its items do, item by item and in order. */
  lemma ArrayResolves(items: seq<Json>, types: seq<Json>)
    ensures Resolve(JArr(items), types).Some? <==> forall i | 0 <= i < |items| :: Resolve(items[i], types).Some?
    ensures Resolve(JArr(items), types).Some? ==>
              && Resolve(JArr(items), types).value.JArr?
              && var resolved := Resolve(JArr(items), types).value.items;
                 |resolved| == |items| && forall i | 0 <= i < |items| :: Some(resolved[i]) == Resolve(items[i], types)
  {
  }

  /** An object that is no reference resolves exactly if its entries do, key by key. */
  lemma ObjectResolves(fields: map<string, Json>, types: seq<Json>)
    requires !IsReference(JObj(fields))
    ensures Resolve(JObj(fields), types).Some? <==> forall key | key in fields :: Resolve(fields[key], types).Some?
    ensures Resolve(JObj(fields), types).Some? ==>
              && Resolve(JObj(fields), types).value.JObj?
              && var resolved := Resolve(JObj(fields), types).value.fields;
                 resolved.Keys == fields.Keys && forall key | key in fields :: Some(resolved[key]) == Resolve(fields[key], types)
  {
  }

  /** Met again below itself a type is a mark that names it; outside the table a reference fails. */
  lemma ReferenceExpands(index: int, types: seq<Json>, trail: set<nat>)
    ensures !(0 <= index < |types|) ==> Expand(Reference(index), types, trail).None?
    ensures 0 <= index < |types| && index in trail ==>
              && Expand(Reference(index), types, trail).Some?
              && ToJson(Expand(Reference(index), types, trail).value) == JObj(map["RecursiveRef" := JNum(index)])
    ensures 0 <= index < |types| && index !in trail ==>
              Expand(Reference(index), types, trail) == Expand(types[index], types, trail + {index})
  {
    ReferencesAre(Reference(index));
  }

  /** A type without marks is the same wherever it is resolved: what is on the trail plays no part in it. */
  lemma {:induction false} TrailIsInvisible(value: Json, types: seq<Json>, trail: set<nat>, wider: set<nat>)
    requires trail <= wider && Expand(value, types, wider).Some? && !Marked(Expand(value, types, wider).value)
    ensures Expand(value, types, trail) == Expand(value, types, wider)
    decreases |Unvisited(types, wider)|, value
  {
    match value
    case JArr(items) =>
      var tree := Expand(value, types, wider).value;
      forall i | 0 <= i < |items| ensures Expand(items[i], types, trail) == Expand(items[i], types, wider) {
        assert Expand(items[i], types, wider) == Some(tree.items[i]);
        TrailIsInvisible(items[i], types, trail, wider);
      }
      assert Expand(value, types, trail).value.items == tree.items;
    case JObj(fields) =>
      if IsReference(value) {
        var index := IndexOf(value);
        VisitingShrinks(types, wider, index);
        TrailIsInvisible(types[index], types, trail + {index}, wider + {index});
      } else {
        var tree := Expand(value, types, wider).value;
        forall key | key in fields ensures Expand(fields[key], types, trail) == Expand(fields[key], types, wider) {
          assert Expand(fields[key], types, wider) == Some(tree.fields[key]);
          TrailIsInvisible(fields[key], types, trail, wider);
        }
        assert Expand(value, types, trail).value.fields == tree.fields;
      }
    case _ =>
  }

  /** So a reference to a type that is not recursive resolves to what the type itself resolves to. */
  lemma ReferenceResolves(index: nat, types: seq<Json>)
    requires index < |types|
    requires Expand(Reference(index), types, {}).Some? && !Marked(Expand(Reference(index), types, {}).value)
    ensures Resolve(Reference(index), types) == Resolve(types[index], types)
  {
    ReferenceExpands(index, types, {});
    TrailIsInvisible(types[index], types, {}, {} + {index});
  }

  // ----------------------------------------------------------------------- renumbering

  /** `pi[i]` is where type `i` of the old table sits in the new one. */
  predicate Renumbers(pi: seq<nat>, old_: nat, new_: nat) {
    && |pi| == old_
    && (forall i | 0 <= i < old_ :: pi[i] < new_)
    && forall i, j | 0 <= i < j < old_ :: pi[i] != pi[j]
  }

  /** The value with every reference renumbered; one that points outside the table stays. */
  function Rename(value: Json, pi: seq<nat>): Json {
    match value
    case JArr(items) => JArr(seq(|items|, i requires 0 <= i < |items| => Rename(items[i], pi)))
    case JObj(fields) =>
      if IsReference(value) then
        if 0 <= IndexOf(value) < |pi| then JObj(map["Ref" := JNum(pi[IndexOf(value)])]) else value
      else JObj(map key | key in fields :: Rename(fields[key], pi))
    case _ => value
  }

  function RenameTree(tree: Tree, pi: seq<nat>): Tree {
    match tree
    case Leaf(_) => tree
    case Items(items) => Items(seq(|items|, i requires 0 <= i < |items| => RenameTree(items[i], pi)))
    case Fields(fields) => Fields(map key | key in fields :: RenameTree(fields[key], pi))
    case Recursive(index) => Recursive(if index < |pi| then pi[index] else index)
  }

  function Image(trail: set<nat>, pi: seq<nat>): set<nat> {
    set i | i in trail && i < |pi| :: pi[i]
  }

  /** The new table holds every type of the old one, renamed, where `pi` says. */
  predicate Embeds(types: seq<Json>, table: seq<Json>, pi: seq<nat>) {
    && Renumbers(pi, |types|, |table|)
    && forall i | 0 <= i < |types| :: table[pi[i]] == Rename(types[i], pi)
  }

  lemma RenamedIsReference(value: Json, pi: seq<nat>)
    ensures IsReference(Rename(value, pi)) <==> IsReference(value)
    ensures IsReference(value) ==>
              IndexOf(Rename(value, pi)) == if 0 <= IndexOf(value) < |pi| then pi[IndexOf(value)] else IndexOf(value)
  {
    if value.JObj? && !IsReference(value) {
      var renamed := Rename(value, pi);
      assert renamed.fields.Keys == value.fields.Keys;
      if renamed.fields.Keys == {"Ref"} {
        assert "Ref" in value.fields;
        assert renamed.fields["Ref"] == Rename(value.fields["Ref"], pi);
      }
    }
  }

  lemma ImageHolds(trail: set<nat>, pi: seq<nat>, types: nat, table: nat, index: nat)
    requires Renumbers(pi, types, table) && index < types && forall i | i in trail :: i < types
    ensures pi[index] in Image(trail, pi) <==> index in trail
    ensures Image(trail + {index}, pi) == Image(trail, pi) + {pi[index]}
  {
    if pi[index] in Image(trail, pi) {
      var i :| i in trail && i < |pi| && pi[i] == pi[index];
      assert i == index;
    }
  }

  /**
   Resolution commutes with renumbering: the renamed value over the new table resolves to the
   old result with its recursion marks renumbered, and over a table of the same size an
   invalid reference stays invalid.
   */
  lemma {:induction false} ExpandRenames(value: Json, types: seq<Json>, trail: set<nat>, table: seq<Json>, pi: seq<nat>)
    requires Embeds(types, table, pi) && forall i | i in trail :: i < |types|
    ensures Expand(value, types, trail).Some? ==>
              Expand(Rename(value, pi), table, Image(trail, pi)) == Some(RenameTree(Expand(value, types, trail).value, pi))
    ensures |table| == |types| && Expand(value, types, trail).None? ==>
              Expand(Rename(value, pi), table, Image(trail, pi)).None?
    decreases |Unvisited(types, trail)|, value
  {
    match value
    case JArr(items) => ItemsRename(items, types, trail, table, pi);
    case JObj(fields) =>
      RenamedIsReference(value, pi);
      if IsReference(value) {
        var index := IndexOf(value);
        if 0 <= index < |types| {
          ImageHolds(trail, pi, |types|, |table|, index);
          if index !in trail {
            VisitingShrinks(types, trail, index);
            ExpandRenames(types[index], types, trail + {index}, table, pi);
          }
        }
      } else {
        FieldsRename(value, types, trail, table, pi);
      }
    case _ =>
  }

  lemma {:induction false} ItemsRename(items: seq<Json>, types: seq<Json>, trail: set<nat>, table: seq<Json>, pi: seq<nat>)
    requires Embeds(types, table, pi) && forall i | i in trail :: i < |types|
    ensures var value := JArr(items);
            && (Expand(value, types, trail).Some? ==>
                  Expand(Rename(value, pi), table, Image(trail, pi)) == Some(RenameTree(Expand(value, types, trail).value, pi)))
            && (|table| == |types| && Expand(value, types, trail).None? ==>
                  Expand(Rename(value, pi), table, Image(trail, pi)).None?)
    decreases |Unvisited(types, trail)|, items
  {
    var renamed := Rename(JArr(items), pi).items;
    forall i | 0 <= i < |items|
      ensures Expand(items[i], types, trail).Some? ==>
                Expand(renamed[i], table, Image(trail, pi)) == Some(RenameTree(Expand(items[i], types, trail).value, pi))
      ensures |table| == |types| && Expand(items[i], types, trail).None? ==>
                Expand(renamed[i], table, Image(trail, pi)).None?
    {
      ExpandRenames(items[i], types, trail, table, pi);
    }
    if Expand(JArr(items), types, trail).Some? {
      var was, now := Expand(JArr(items), types, trail).value, Expand(JArr(renamed), table, Image(trail, pi)).value;
      assert now.items == RenameTree(was, pi).items;
    }
  }

  lemma {:induction false} FieldsRename(value: Json, types: seq<Json>, trail: set<nat>, table: seq<Json>, pi: seq<nat>)
    requires Embeds(types, table, pi) && forall i | i in trail :: i < |types|
    requires value.JObj? && !IsReference(value) && !IsReference(Rename(value, pi))
    ensures Expand(value, types, trail).Some? ==>
              Expand(Rename(value, pi), table, Image(trail, pi)) == Some(RenameTree(Expand(value, types, trail).value, pi))
    ensures |table| == |types| && Expand(value, types, trail).None? ==>
              Expand(Rename(value, pi), table, Image(trail, pi)).None?
    decreases |Unvisited(types, trail)|, value, 0
  {
    var fields, renamed := value.fields, Rename(value, pi).fields;
    forall key | key in fields
      ensures Expand(fields[key], types, trail).Some? ==>
                Expand(renamed[key], table, Image(trail, pi)) == Some(RenameTree(Expand(fields[key], types, trail).value, pi))
      ensures |table| == |types| && Expand(fields[key], types, trail).None? ==>
                Expand(renamed[key], table, Image(trail, pi)).None?
    {
      ExpandRenames(fields[key], types, trail, table, pi);
    }
    if Expand(value, types, trail).Some? {
      var was, now := Expand(value, types, trail).value, Expand(Rename(value, pi), table, Image(trail, pi)).value;
      assert now.fields == RenameTree(was, pi).fields;
    }
  }

  // ------------------------------------------------------------------- consequences

  /** Whether a result holds a recursion mark. */
  ghost predicate Marked(tree: Tree) {
    match tree
    case Leaf(_) => false
    case Items(items) => exists i :: 0 <= i < |items| && Marked(items[i])
    case Fields(fields) => exists key :: key in fields && Marked(fields[key])
    case Recursive(_) => true
  }

  lemma {:induction false} UnmarkedStays(tree: Tree, pi: seq<nat>)
    requires !Marked(tree)
    ensures RenameTree(tree, pi) == tree
  {
    match tree
    case Leaf(_) =>
    case Items(items) =>
      forall i | 0 <= i < |items| ensures RenameTree(items[i], pi) == items[i] { UnmarkedStays(items[i], pi); }
      assert RenameTree(tree, pi).items == items;
    case Fields(fields) =>
      forall key | key in fields ensures RenameTree(fields[key], pi) == fields[key] { UnmarkedStays(fields[key], pi); }
      assert RenameTree(tree, pi).fields == fields;
    case Recursive(_) =>
  }

  /** A result without recursion marks does not depend on how the table is numbered. */
  lemma RenumberingIsInvisible(value: Json, types: seq<Json>, table: seq<Json>, pi: seq<nat>)
    requires Embeds(types, table, pi) && Expand(value, types, {}).Some? && !Marked(Expand(value, types, {}).value)
    ensures Resolve(Rename(value, pi), table) == Resolve(value, types)
  {
    ExpandRenames(value, types, {}, table, pi);
    assert Image({}, pi) == {};
    UnmarkedStays(Expand(value, types, {}).value, pi);
  }

  function Identity(n: nat): (pi: seq<nat>)
    ensures |pi| == n && forall i | 0 <= i < n :: pi[i] == i
  {
    seq(n, i => i)
  }

  lemma {:induction false} IdentityRenames(value: Json, n: nat)
    ensures Rename(value, Identity(n)) == value
  {
    var pi := Identity(n);
    match value
    case JArr(items) =>
      forall i | 0 <= i < |items| ensures Rename(items[i], pi) == items[i] { IdentityRenames(items[i], n); }
      assert Rename(value, pi).items == items;
    case JObj(fields) =>
      if !IsReference(value) {
        forall key | key in fields ensures Rename(fields[key], pi) == fields[key] { IdentityRenames(fields[key], n); }
        assert Rename(value, pi).fields == fields;
      } else {
        assert fields == map["Ref" := JNum(IndexOf(value))];
      }
    case _ =>
  }

  lemma {:induction false} IdentityRenamesTree(tree: Tree, n: nat)
    ensures RenameTree(tree, Identity(n)) == tree
  {
    var pi := Identity(n);
    match tree
    case Leaf(_) =>
    case Items(items) =>
      forall i | 0 <= i < |items| ensures RenameTree(items[i], pi) == items[i] { IdentityRenamesTree(items[i], n); }
      assert RenameTree(tree, pi).items == items;
    case Fields(fields) =>
      forall key | key in fields ensures RenameTree(fields[key], pi) == fields[key] { IdentityRenamesTree(fields[key], n); }
      assert RenameTree(tree, pi).fields == fields;
    case Recursive(_) =>
  }

  /** Appending types changes no result, recursion marks included. */
  lemma AppendingIsInvisible(value: Json, types: seq<Json>, more: seq<Json>)
    requires Resolve(value, types).Some?
    ensures Resolve(value, types + more) == Resolve(value, types)
  {
    var pi, table := Identity(|types|), types + more;
    forall i | 0 <= i < |types| ensures table[pi[i]] == Rename(types[i], pi) { IdentityRenames(types[i], |types|); }
    assert Embeds(types, table, pi);
    ExpandRenames(value, types, {}, table, pi);
    assert Image({}, pi) == {};
    IdentityRenames(value, |types|);
    IdentityRenamesTree(Expand(value, types, {}).value, |types|);
  }

  /** It is not so for failures: a reference one past the table becomes valid. */
  lemma AppendingCanRepair(types: seq<Json>)
    ensures var past := JObj(map["Ref" := JNum(|types|)]);
            Resolve(past, types).None? && Resolve(past, types + [JNull]) == Some(JNull)
  {
    var past := JObj(map["Ref" := JNum(|types|)]);
    var table, none: set<nat> := types + [JNull], {};
    assert past.fields.Keys == {"Ref"} && IndexOf(past) == |types|;
    assert table[|types|] == JNull;
    assert Expand(table[|types|], table, none + {|types|}) == Some(Leaf(JNull));
    assert Expand(past, table, none) == Some(Leaf(JNull));
  }

  // ------------------------------------------------------------------------------ tables

  datatype Table = Table(metadata: Json, productTypeRef: int)

  /** `tableAbiSurface`: every table with its product type resolved, or the first failure. */
  method TableAbiSurface(tables: seq<Table>, types: seq<Json>) returns (surface: Option<seq<(Json, Json)>>)
    ensures surface.Some? <==> forall i | 0 <= i < |tables| :: Resolve(Reference(tables[i].productTypeRef), types).Some?
    ensures surface.Some? ==>
              && |surface.value| == |tables|
              && forall i | 0 <= i < |tables| ::
                   && surface.value[i].0 == tables[i].metadata
                   && Some(surface.value[i].1) == Resolve(Reference(tables[i].productTypeRef), types)
  {
    hide Resolve;
    var rows: seq<(Json, Json)> := [];
    for i := 0 to |tables|
      invariant |rows| == i
      invariant forall j | 0 <= j < i ::
                  && rows[j].0 == tables[j].metadata
                  && Some(rows[j].1) == Resolve(Reference(tables[j].productTypeRef), types)
    {
      var resolved := Resolve(Reference(tables[i].productTypeRef), types);
      if resolved.None? { return None; }
      rows := rows + [(tables[i].metadata, resolved.value)];
    }
    surface := Some(rows);
  }

  /** The surface of a table survives any renumbering of the typespace, as long as its type is not recursive. */
  lemma TableSurvivesRenumbering(table: Table, types: seq<Json>, renumbered: seq<Json>, pi: seq<nat>)
    requires Embeds(types, renumbered, pi) && 0 <= table.productTypeRef < |types|
    requires Expand(Reference(table.productTypeRef), types, {}).Some? && !Marked(Expand(Reference(table.productTypeRef), types, {}).value)
    ensures Resolve(Reference(pi[table.productTypeRef]), renumbered) == Resolve(Reference(table.productTypeRef), types)
  {
    var value := Reference(table.productTypeRef);
    assert value.fields.Keys == {"Ref"};
    RenumberingIsInvisible(value, types, renumbered, pi);
  }

  /** A recursive type is resolved too, and its mark does depend on the numbering. */
  lemma RecursiveMarksAreNumbered()
    ensures var types, table := [JArr([Reference(0)]), JNull], [JNull, JArr([Reference(1)])];
            && Embeds(types, table, [1, 0])
            && Expand(Reference(0), types, {}) == Some(Items([Recursive(0)]))
            && Expand(Reference(1), table, {}) == Some(Items([Recursive(1)]))
  {
    var types, table, pi := [JArr([Reference(0)]), JNull], [JNull, JArr([Reference(1)])], [1, 0];
    assert Reference(0).fields.Keys == {"Ref"} && Reference(1).fields.Keys == {"Ref"};
    assert Rename(Reference(0), pi) == Reference(1);
    assert Rename(types[0], pi) == JArr([Reference(1)]) by { assert Rename(types[0], pi).items == [Reference(1)]; }
    assert Embeds(types, table, pi);
    var none: set<nat> := {};
    assert Expand(Reference(0), types, none + {0}) == Some(Recursive(0));
    assert types[0].items[0] == Reference(0);
    assert Expand(types[0], types, none + {0}).Some?;
    assert Expand(types[0], types, none + {0}).value.items == [Recursive(0)];
    ExpandRenames(Reference(0), types, {}, table, pi);
    assert Image({}, pi) == {};
    assert RenameTree(Items([Recursive(0)]), pi).items == [Recursive(1)];
  }
}
