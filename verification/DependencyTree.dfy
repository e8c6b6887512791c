/**
 The content stream of a dependency tree: every entry in preorder, names in order, framed
 (scripts/greater-realm-production-immutable-artifact.ts, dependencyTreeSnapshot).
 */
module DependencyTree {
  import opened Wrappers
  import opened Framing

  /** A file is its size and the 32 bytes of its SHA-256. */
  datatype Tree =
    | Directory(mode: nat, children: seq<Child>)
    | File(mode: nat, size: nat, sha256: Bytes)
    | Symlink(mode: nat, target: Bytes)

  datatype Child = Child(name: Bytes, tree: Tree)

  /** A name the walk accepts. */
  ghost predicate PlainName(name: Bytes) {
    name != "" && name != "." && name != ".." && '/' !in name && '\0' !in name
  }

  ghost predicate WellNamed(tree: Tree) {
    tree.Directory? ==> NamedForest(tree.children)
  }

  ghost predicate NamedForest(children: seq<Child>) {
    forall i | 0 <= i < |children| :: PlainName(children[i].name) && WellNamed(children[i].tree)
  }

  function JoinPath(path: Bytes, name: Bytes): Bytes {
    if path == "" then name else path + "/" + name
  }

  ghost function KindName(tree: Tree): Bytes {
    match tree
    case Directory(_, _) => "directory"
    case File(_, _, _) => "file"
    case Symlink(_, _) => "symlink"
  }

  ghost function Header(tree: Tree, path: Bytes): seq<Field> {
    [Field("entry-kind", KindName(tree)), Field("entry-path", path), Field("entry-mode", Numeral(tree.mode, 8))]
  }

  ghost function Entries(tree: Tree, path: Bytes): (fields: seq<Field>)
    ensures |fields| >= 3 && fields[..3] == Header(tree, path)
    decreases tree, 1
  {
    Header(tree, path)
    + match tree
      case Directory(_, children) => Forest(children, path)
      case File(_, size, sha) => [Field("entry-file-size", Numeral(size, 10)), Field("entry-file-sha256", sha)]
      case Symlink(_, target) => [Field("entry-symlink-target", target)]
  }

  ghost function Forest(children: seq<Child>, path: Bytes): seq<Field>
    decreases children, 0
  {
    if children == [] then [] else
    Entries(children[0].tree, JoinPath(path, children[0].name)) + Forest(children[1..], path)
  }

  ghost function Snapshot(tree: Tree): seq<Field> {
    [Field("domain", "warpkeep-dependency-tree-content-v2")] + Entries(tree, "")
  }

  // ------------------------------------------------------------------------ the walk

  /** The fields after the header that are not children. */
  ghost function Leaf(tree: Tree): seq<Field> {
    match tree
    case Directory(_, _) => []
    case File(_, size, sha) => [Field("entry-file-size", Numeral(size, 10)), Field("entry-file-sha256", sha)]
    case Symlink(_, target) => [Field("entry-symlink-target", target)]
  }

  lemma EntriesSplit(tree: Tree, path: Bytes)
    ensures Entries(tree, path) == Header(tree, path) + if tree.Directory? then Forest(tree.children, path) else Leaf(tree)
  {
  }

  /** `dependencyTreeSnapshot`, as far as the content stream: a name that is not plain is refused. */
  method DependencyTreeSnapshot(content: Hash, tree: Tree) returns (ok: bool)
    modifies content
    ensures ok <==> WellNamed(tree)
    ensures ok ==> content.stream == old(content.stream) + Stream(Snapshot(tree))
  {
    var domain := [Field("domain", "warpkeep-dependency-tree-content-v2")];
    assert Snapshot(tree) == domain + Entries(tree, "");
    hide Stream, Entries, Snapshot;
    UpdateFields(content, domain);
    ok := Visit(content, tree, "");
    if ok {
      StreamAppends(domain, Entries(tree, ""));
      Associates(old(content.stream), Stream(domain), Stream(Entries(tree, "")));
    }
  }

  /** What `visit` hashes of every entry. */
  method UpdateHeader(content: Hash, tree: Tree, path: Bytes)
    modifies content
    ensures content.stream == old(content.stream) + Stream(Header(tree, path))
  {
    var kind := match tree case Directory(_, _) => "directory" case File(_, _, _) => "file" case Symlink(_, _) => "symlink";
    UpdateFields(content, [Field("entry-kind", kind), Field("entry-path", path), Field("entry-mode", Numeral(tree.mode, 8))]);
  }

  /** What `visit` hashes besides of an entry without children. */
  method UpdateLeaf(content: Hash, tree: Tree)
    requires !tree.Directory?
    modifies content
    ensures content.stream == old(content.stream) + Stream(Leaf(tree))
  {
    if tree.File? {
      UpdateFields(content, [Field("entry-file-size", Numeral(tree.size, 10)), Field("entry-file-sha256", tree.sha256)]);
    } else {
      UpdateFields(content, [Field("entry-symlink-target", tree.target)]);
    }
  }

  /** `visit`: hashes one entry, and for a directory its children in order. */
  method Visit(content: Hash, tree: Tree, path: Bytes) returns (ok: bool)
    modifies content
    ensures ok <==> WellNamed(tree)
    ensures ok ==> content.stream == old(content.stream) + Stream(Entries(tree, path))
    decreases tree, 1
  {
    hide Stream, Header, Entries, Leaf, Forest, NamedForest;
    EntriesSplit(tree, path);
    UpdateHeader(content, tree, path);
    if tree.Directory? {
      ok := VisitChildren(content, tree.children, path);
      StreamAppends(Header(tree, path), Forest(tree.children, path));
      Associates(old(content.stream), Stream(Header(tree, path)), Stream(Forest(tree.children, path)));
    } else {
      UpdateLeaf(content, tree);
      StreamAppends(Header(tree, path), Leaf(tree));
      Associates(old(content.stream), Stream(Header(tree, path)), Stream(Leaf(tree)));
      ok := true;
    }
  }

  method AcceptsName(name: Bytes) returns (ok: bool)
    ensures ok <==> PlainName(name)
  {
    ok := name != "" && name != "." && name != ".." && '/' !in name && '\0' !in name;
  }

  method VisitChildren(content: Hash, children: seq<Child>, path: Bytes) returns (ok: bool)
    modifies content
    ensures ok <==> NamedForest(children)
    ensures ok ==> content.stream == old(content.stream) + Stream(Forest(children, path))
    decreases children, 0
  {
    assert Stream([]) == "" && children[..0] == [] && Forest([], path) == [] && NamedForest([]);
    hide Stream, Entries, Forest, JoinPath, PlainName, WellNamed, NamedForest;
    for i := 0 to |children|
      invariant NamedForest(children[..i])
      invariant content.stream == old(content.stream) + Stream(Forest(children[..i], path))
    {
      NamedSnoc(children, i);
      ok := AcceptsName(children[i].name);
      if !ok { return; }
      var below := JoinPath(path, children[i].name);
      ok := Visit(content, children[i].tree, below);
      if !ok { return; }
      ForestSnoc(children, i, path);
      StreamAppends(Forest(children[..i], path), Entries(children[i].tree, below));
      Associates(old(content.stream), Stream(Forest(children[..i], path)), Stream(Entries(children[i].tree, below)));
    }
    assert children[..|children|] == children;
    ok := true;
  }

  lemma NamedSnoc(children: seq<Child>, i: nat)
    requires i < |children|
    ensures NamedForest(children[..i + 1])
       <==> NamedForest(children[..i]) && PlainName(children[i].name) && WellNamed(children[i].tree)
    ensures NamedForest(children) ==> NamedForest(children[..i + 1])
  {
    hide PlainName, WellNamed;
    var longer := children[..i + 1];
    assert longer[i] == children[i] && forall j | 0 <= j < i :: longer[j] == children[..i][j];
  }

  lemma {:induction false} ForestSnoc(children: seq<Child>, i: nat, path: Bytes)
    requires i < |children|
    ensures Forest(children[..i + 1], path)
         == Forest(children[..i], path) + Entries(children[i].tree, JoinPath(path, children[i].name))
  {
    hide Entries, JoinPath;
    if i > 0 {
      var longer, first := children[..i + 1], Entries(children[0].tree, JoinPath(path, children[0].name));
      ForestSnoc(children[1..], i - 1, path);
      assert children[1..][..i - 1] == children[..i][1..] && children[1..][..i] == longer[1..];
      assert Forest(longer, path) == first + Forest(longer[1..], path);
      assert Forest(children[..i], path) == first + Forest(children[..i][1..], path);
    } else {
      assert children[..1] == [children[0]] && children[..0] == [];
    }
  }

  // ----------------------------------------------------------------------- injectivity

  /** `path` names an entry below `root`. */
  ghost predicate Under(path: Bytes, root: Bytes) {
    root == "" || (|path| > |root| && path[..|root|] == root && path[|root|] == '/')
  }

  /** What follows an entry's fields: nothing, or the header of an entry elsewhere. */
  ghost predicate Outside(rest: seq<Field>, root: Bytes) {
    rest == [] || (|rest| >= 3 && rest[1].tag == "entry-path" && !Under(rest[1].value, root))
  }

  /** The header of an entry and its rest: equal streams start with the same entry. */
  lemma HeadersAgree(x: Tree, y: Tree, p: Bytes, q: Bytes, xs: seq<Field>, ys: seq<Field>)
    requires Entries(x, p) + xs == Entries(y, q) + ys
    ensures p == q && KindName(x) == KindName(y) && x.mode == y.mode
    ensures (Entries(x, p) + xs)[3..] == (Entries(y, q) + ys)[3..]
  {
    assert (Entries(x, p) + xs)[..3] == Header(x, p) && (Entries(y, q) + ys)[..3] == Header(y, q);
    assert Header(x, p)[0] == Header(y, q)[0] && Header(x, p)[1] == Header(y, q)[1] && Header(x, p)[2] == Header(y, q)[2];
    NumeralInjective(x.mode, y.mode, 8);
  }

  lemma KindsDiffer(x: Tree, y: Tree)
    requires KindName(x) == KindName(y)
    ensures x.Directory? == y.Directory? && x.File? == y.File? && x.Symlink? == y.Symlink?
  {
    assert |KindName(x)| == |KindName(y)|;
  }

  lemma JoinInjective(path: Bytes, x: Bytes, y: Bytes)
    requires JoinPath(path, x) == JoinPath(path, y)
    ensures x == y
  {
    if path != "" {
      assert (path + "/" + x)[|path| + 1..] == x && (path + "/" + y)[|path| + 1..] == y;
    }
  }

  lemma ChildIsUnder(path: Bytes, name: Bytes)
    ensures Under(JoinPath(path, name), path)
  {
  }

  /** A sibling is not below its sibling. */
  lemma SiblingIsOutside(path: Bytes, x: Bytes, y: Bytes)
    requires PlainName(x) && PlainName(y)
    ensures !Under(JoinPath(path, y), JoinPath(path, x))
  {
    var start := if path == "" then 0 else |path| + 1;
    var p, q := JoinPath(path, x), JoinPath(path, y);
    assert q[start..] == y && |p| >= start;
    if |q| > |p| {
      assert q[|p|] == y[|p| - start] && y[|p| - start] in y;
    }
  }

  lemma UnderTransitive(path: Bytes, name: Bytes, other: Bytes)
    requires Under(other, JoinPath(path, name))
    ensures Under(other, path)
  {
    if path != "" {
      var p := JoinPath(path, name);
      assert other[..|path|] == p[..|path|] == path;
      assert other[|path|] == p[|path|] == '/';
    }
  }

  /** The fields of a tree, followed by what is outside it, determine the tree and the rest. */
  lemma {:induction false} EntriesDetermineTree(x: Tree, y: Tree, path: Bytes, xs: seq<Field>, ys: seq<Field>)
    requires WellNamed(x) && WellNamed(y) && Entries(x, path) + xs == Entries(y, path) + ys
    requires Outside(xs, path) && Outside(ys, path)
    ensures x == y && xs == ys
    decreases x, 1
  {
    hide Entries, Forest, Header, KindName, Outside, Leaf;
    HeadersAgree(x, y, path, path, xs, ys);
    KindsDiffer(x, y);
    BodyFields(x, path, xs);
    BodyFields(y, path, ys);
    if x.Directory? {
      ForestDeterminesChildren(x.children, y.children, path, xs, ys);
    } else {
      LeavesAgree(x, y, xs, ys);
    }
  }

  lemma BodyFields(tree: Tree, path: Bytes, rest: seq<Field>)
    ensures (Entries(tree, path) + rest)[3..] == (if tree.Directory? then Forest(tree.children, path) else Leaf(tree)) + rest
  {
  }

  lemma LeavesAgree(x: Tree, y: Tree, xs: seq<Field>, ys: seq<Field>)
    requires Leaf(x) + xs == Leaf(y) + ys && x.mode == y.mode
    requires (x.File? && y.File?) || (x.Symlink? && y.Symlink?)
    ensures x == y && xs == ys
  {
    var n := |Leaf(x)|;
    assert |Leaf(y)| == n;
    assert (Leaf(x) + xs)[n..] == xs && (Leaf(y) + ys)[n..] == ys;
    assert Leaf(x) == (Leaf(x) + xs)[..n] == (Leaf(y) + ys)[..n] == Leaf(y);
    assert Leaf(x)[0] == Leaf(y)[0] && Leaf(x)[n - 1] == Leaf(y)[n - 1];
    if x.File? { NumeralInjective(x.size, y.size, 10); }
  }

  /** What follows the first child is outside it. */
  lemma RestIsOutside(children: seq<Child>, path: Bytes, rest: seq<Field>)
    requires children != [] && NamedForest(children) && Outside(rest, path)
    ensures Outside(Forest(children[1..], path) + rest, JoinPath(path, children[0].name))
  {
    var name, after := children[0].name, Forest(children[1..], path) + rest;
    if |children| > 1 {
      assert children[1..][0] == children[1];
      assert after[..3] == Header(children[1].tree, JoinPath(path, children[1].name));
      assert after[1] == Header(children[1].tree, JoinPath(path, children[1].name))[1];
      SiblingIsOutside(path, name, children[1].name);
    } else {
      assert after == rest;
      if rest != [] && Under(rest[1].value, JoinPath(path, name)) { UnderTransitive(path, name, rest[1].value); }
    }
  }

  /** A forest with a first child starts with a path below the directory. */
  lemma ForestStartsBelow(children: seq<Child>, path: Bytes, rest: seq<Field>)
    requires children != []
    ensures var fields := Forest(children, path) + rest;
            |fields| >= 3 && fields[1].tag == "entry-path" && Under(fields[1].value, path)
  {
    var fields := Forest(children, path) + rest;
    assert fields[..3] == Header(children[0].tree, JoinPath(path, children[0].name));
    assert fields[1] == Header(children[0].tree, JoinPath(path, children[0].name))[1];
    ChildIsUnder(path, children[0].name);
  }

  lemma {:induction false} ForestDeterminesChildren(x: seq<Child>, y: seq<Child>, path: Bytes, xs: seq<Field>, ys: seq<Field>)
    requires NamedForest(x) && NamedForest(y) && Forest(x, path) + xs == Forest(y, path) + ys
    requires Outside(xs, path) && Outside(ys, path)
    ensures x == y && xs == ys
    decreases x, 0
  {
    hide Entries, Forest, JoinPath, Under, PlainName, WellNamed;
    if x == [] || y == [] {
      EmptyForest(path, xs);
      EmptyForest(path, ys);
      if x != [] { ForestStartsBelow(x, path, xs); }
      if y != [] { ForestStartsBelow(y, path, ys); }
    } else {
      var p, q := JoinPath(path, x[0].name), JoinPath(path, y[0].name);
      var us, vs := Forest(x[1..], path) + xs, Forest(y[1..], path) + ys;
      ForestSplits(x, path, xs);
      ForestSplits(y, path, ys);
      HeadersAgree(x[0].tree, y[0].tree, p, q, us, vs);
      JoinInjective(path, x[0].name, y[0].name);
      RestIsOutside(x, path, xs);
      RestIsOutside(y, path, ys);
      EntriesDetermineTree(x[0].tree, y[0].tree, p, us, vs);
      ForestDeterminesChildren(x[1..], y[1..], path, xs, ys);
      assert x == [x[0]] + x[1..] && y == [y[0]] + y[1..];
    }
  }

  lemma EmptyForest(path: Bytes, rest: seq<Field>)
    ensures Forest([], path) + rest == rest
  {
  }

  lemma ForestSplits(children: seq<Child>, path: Bytes, rest: seq<Field>)
    requires children != []
    ensures Forest(children, path) + rest
         == Entries(children[0].tree, JoinPath(path, children[0].name)) + (Forest(children[1..], path) + rest)
  {
    hide Entries;
  }

  /** Equal content streams mean equal trees, up to file bodies of equal SHA-256. */
  lemma EqualStreamsMeanEqualTrees(x: Tree, y: Tree)
    requires WellNamed(x) && WellNamed(y) && Framable(Snapshot(x)) && Framable(Snapshot(y))
    requires Stream(Snapshot(x)) == Stream(Snapshot(y))
    ensures x == y
  {
    hide Stream, Framable, Entries;
    StreamInjective(Snapshot(x), Snapshot(y));
    assert Snapshot(x)[1..] == Entries(x, "") && Snapshot(y)[1..] == Entries(y, "");
    assert Entries(x, "") + [] == Entries(x, "") && Entries(y, "") + [] == Entries(y, "");
    EntriesDetermineTree(x, y, "", [], []);
  }
}
