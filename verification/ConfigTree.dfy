/** The config trees of deployments/upgrades/export_configs_to_helm.py and the paths into
    them. A tree is a value here: JSON holds no shared subtrees. */
module ConfigTree {
  import opened Outcomes
  import opened Text

  /** A scalar that is not a string is a `Leaf` with any text but the mask. */
  datatype Tree = Leaf(text: string) | Dict(entries: map<string, Tree>) | List(items: seq<Tree>)

  type Path = seq<string>

  const MASKED := Leaf("**********")

  // ---------- lookup and assignment as the program does them ----------

  /** One step of `_get_parent_for_path`: any digit string below the length selects an element. */
  function Child(t: Tree, part: string): (c: Option<Tree>) {
    match t
    case Dict(entries) => if part in entries then Some(entries[part]) else None
    case List(items) => if IsDigits(part) && Number(part) < |items| then Some(items[Number(part)]) else None
    case Leaf(_) => None
  }

  function Get(t: Tree, path: Path): Option<Tree> {
    if path == [] then Some(t)
    else
      match Child(t, path[0])
      case None => None
      case Some(c) => Get(c, path[1..])
  }

  function SetChild(t: Tree, part: string, c: Tree): Tree
    requires Child(t, part).Some?
  {
    match t
    case Dict(entries) => Dict(entries[part := c])
    case List(items) => List(items[Number(part) := c])
  }

  /** The tree after assigning at an existing path. */
  function Set(t: Tree, path: Path, v: Tree): Tree
    requires Get(t, path).Some?
    decreases |path|
  {
    if path == [] then v else SetChild(t, path[0], Set(Child(t, path[0]).value, path[1..], v))
  }

  lemma {:induction false} GetInTwoSteps(t: Tree, path: Path, rest: Path)
    requires Get(t, path).Some?
    ensures Get(t, path + rest) == Get(Get(t, path).value, rest)
    decreases |path|
  {
    if path == [] {
      assert path + rest == rest;
    } else {
      GetInTwoSteps(Child(t, path[0]).value, path[1..], rest);
      assert (path + rest)[1..] == path[1..] + rest;
    }
  }

  // ---------- the paths that the walk reports ----------

  /** The child under its reported label, which for a list is `str(index)` alone. */
  function Part(t: Tree, part: string): (c: Option<Tree>)
    ensures c.Some? ==> Child(t, part) == c
  {
    match t
    case Dict(entries) => if part in entries then Some(entries[part]) else None
    case List(items) =>
      if IsDigits(part) && Number(part) < |items| && part == Decimal(Number(part)) then Some(items[Number(part)]) else None
    case Leaf(_) => None
  }

  function At(t: Tree, path: Path): Option<Tree> {
    if path == [] then Some(t)
    else
      match Part(t, path[0])
      case None => None
      case Some(c) => At(c, path[1..])
  }

  predicate MaskedAt(t: Tree, path: Path) {
    At(t, path) == Some(MASKED)
  }

  lemma {:induction false} AtIsGet(t: Tree, path: Path)
    requires At(t, path).Some?
    ensures Get(t, path) == At(t, path)
    decreases |path|
  {
    if path != [] { AtIsGet(Part(t, path[0]).value, path[1..]); }
  }

  lemma {:induction false} AtInTwoSteps(t: Tree, path: Path, rest: Path)
    requires At(t, path).Some?
    ensures At(t, path + rest) == At(At(t, path).value, rest)
    decreases |path|
  {
    if path == [] {
      assert path + rest == rest;
    } else {
      AtInTwoSteps(Part(t, path[0]).value, path[1..], rest);
      assert (path + rest)[1..] == path[1..] + rest;
    }
  }

  lemma {:induction false} PrefixExists(t: Tree, path: Path, longer: Path)
    requires At(t, longer).Some? && path <= longer
    ensures At(t, path).Some?
    decreases |path|
  {
    if path != [] { PrefixExists(Part(t, path[0]).value, path[1..], longer[1..]); }
  }

  /** `_walk_masked_secret_paths`, as the set its callers make of it. */
  function Walk(t: Tree): set<Path> {
    match t
    case Dict(entries) => set k, p | k in entries && p in Walk(entries[k]) :: [k] + p
    case List(items) => set i, p | 0 <= i < |items| && p in Walk(items[i]) :: [Decimal(i)] + p
    case Leaf(_) => if t == MASKED then {[]} else {}
  }

  /** The walk reports exactly the paths of masked values. */
  lemma {:induction false} WalkFindsMasked(t: Tree, path: Path)
    ensures path in Walk(t) <==> MaskedAt(t, path)
    decreases |path|
  {
    match t
    case Leaf(_) =>
    case Dict(entries) =>
      if path != [] {
        assert path == [path[0]] + path[1..];
        forall k, p | k in entries && [k] + p == path
          ensures k == path[0] && p == path[1..]
        {
          assert ([k] + p)[0] == k && ([k] + p)[1..] == p;
        }
        if path[0] in entries { WalkFindsMasked(entries[path[0]], path[1..]); }
      }
    case List(items) =>
      if path != [] {
        assert path == [path[0]] + path[1..];
        forall i, p | 0 <= i < |items| && [Decimal(i)] + p == path
          ensures Decimal(i) == path[0] && p == path[1..] && IsDigits(path[0]) && Number(path[0]) == i
        {
          DecimalRoundTrip(i);
          assert ([Decimal(i)] + p)[0] == Decimal(i) && ([Decimal(i)] + p)[1..] == p;
        }
        if IsDigits(path[0]) && Number(path[0]) < |items| { WalkFindsMasked(items[Number(path[0])], path[1..]); }
      }
  }
}
