/** `load_secret_mappings` and `apply_secret_mappings` of
    deployments/upgrades/export_configs_to_helm.py: masked values of a config tree are
    replaced by references to Secrets. */
module SecretMapping {
  import opened Outcomes
  import opened Text
  import opened ConfigTree

  datatype Reference = Reference(secretName: string, secretKey: string)

  datatype Mapping = Mapping(path: Path, reference: Reference)

  // ---------- validation ----------

  /** One entry of the operator's file; a field that is absent or not a string is `None`. */
  datatype Entry =
    | NotAnObject
    | Entry(path: Option<string>, secretName: Option<string>, secretKey: Option<string>, hasOtherKeys: bool)

  predicate LowerOrDigit(c: char) {
    'a' <= c <= 'z' || '0' <= c <= '9'
  }

  predicate IsLabel(s: string) {
    && 0 < |s| <= 63
    && LowerOrDigit(s[0]) && LowerOrDigit(s[|s| - 1])
    && forall i | 0 <= i < |s| :: LowerOrDigit(s[i]) || s[i] == '-'
  }

  /** `_is_valid_secret_name`: a DNS subdomain. */
  predicate IsSecretName(s: string) {
    |s| <= 253 && AllLabels(Split(s, '.'))
  }

  predicate AllLabels(parts: seq<string>) {
    forall i | 0 <= i < |parts| :: IsLabel(parts[i])
  }

  predicate IsSecretKey(s: string) {
    && 0 < |s| <= 253
    && forall i | 0 <= i < |s| :: LowerOrDigit(s[i]) || 'A' <= s[i] <= 'Z' || s[i] in "._-"
  }

  predicate IsMappingPath(s: string) {
    s != [] && NoneEmpty(Split(s, '.'))
  }

  predicate NoneEmpty(parts: seq<string>) {
    forall i | 0 <= i < |parts| :: parts[i] != []
  }

  // ---------- the same, character by character ----------

  /** Next to a dot or to an end of the string. */
  predicate AtEdge(s: string, i: nat)
    requires i < |s|
  {
    i == 0 || i == |s| - 1 || s[i - 1] == '.' || s[i + 1] == '.'
  }

  predicate NameCharFits(s: string, i: nat)
    requires i < |s|
  {
    'a' <= s[i] <= 'z' || '0' <= s[i] <= '9' || (!AtEdge(s, i) && (s[i] == '-' || s[i] == '.'))
  }

  predicate DotFree(s: string, i: nat, j: nat)
    requires i <= j <= |s|
  {
    '.' !in s[i..j]
  }

  ghost predicate NameFits(s: string) {
    && s != [] && (forall i | 0 <= i < |s| :: NameCharFits(s, i))
    && forall i, j | 0 <= i <= j <= |s| && DotFree(s, i, j) :: j - i <= 63
  }

  predicate PathFits(s: string) {
    s != [] && forall i | 0 <= i < |s| :: s[i] == '.' ==> !AtEdge(s, i)
  }

  lemma {:induction false} FirstPart(s: string) returns (first: string, rest: string)
    ensures '.' !in first
    ensures if '.' in s then s == first + "." + rest && Split(s, '.') == [first] + Split(rest, '.') else Split(s, '.') == [s]
  {
    if s == [] {
      first, rest := [], [];
    } else if s[0] == '.' {
      first, rest := [], s[1..];
    } else {
      var tail;
      tail, rest := FirstPart(s[1..]);
      first := [s[0]] + tail;
      assert s == [s[0]] + s[1..] && Split(s, '.')[1..] == Split(s[1..], '.')[1..];
      if '.' in s[1..] {
        assert Split(s[1..], '.')[1..] == Split(rest, '.');
      } else {
        assert Split(s, '.') == [s] + [s[1..]][1..];
      }
    }
  }

  lemma DotFreeMeans(s: string, i: nat, j: nat, k: nat)
    requires i <= k < j <= |s| && DotFree(s, i, j)
    ensures s[k] != '.'
  {
    assert s[i..j][k - i] == s[k];
  }

  lemma JoinedNameFits(first: string, rest: string)
    requires '.' !in first
    ensures NameFits(first + "." + rest) ==> IsLabel(first) && NameFits(rest)
  {
    var s, n := first + "." + rest, |first| + 1;
    assert s[n - 1] == '.' && forall i | 0 <= i < |rest| :: s[n + i] == rest[i];
    assert forall i | 0 <= i < |first| :: s[i] == first[i];
    if NameFits(s) {
      assert NameCharFits(s, 0) && NameCharFits(s, n - 1) && NameCharFits(s, n - 2);
      assert s[0..n - 1] == first && DotFree(s, 0, n - 1);
      forall i | 0 <= i < |first| ensures LowerOrDigit(first[i]) || first[i] == '-' {
        assert NameCharFits(s, i) && first[i] in first;
      }
      forall i | 0 <= i < |rest| ensures NameCharFits(rest, i) { assert NameCharFits(s, n + i); }
      forall i, j | 0 <= i <= j <= |rest| && DotFree(rest, i, j) ensures j - i <= 63 {
        assert s[n + i..n + j] == rest[i..j] && DotFree(s, n + i, n + j);
      }
    }
  }

  lemma NamesJoin(first: string, rest: string)
    requires '.' !in first && IsLabel(first) && NameFits(rest)
    ensures NameFits(first + "." + rest)
  {
    var s, n := first + "." + rest, |first| + 1;
    assert s[n - 1] == '.' && forall i | 0 <= i < |rest| :: s[n + i] == rest[i];
    assert forall i | 0 <= i < |first| :: s[i] == first[i];
    forall i | 0 <= i < |s| ensures NameCharFits(s, i) {
      if i >= n {
        assert NameCharFits(rest, i - n);
      } else if i == n - 1 {
        assert NameCharFits(rest, 0);
      }
    }
    forall i, j | 0 <= i <= j <= |s| && DotFree(s, i, j) ensures j - i <= 63 {
      if i >= n {
        assert s[i..j] == rest[i - n..j - n] && DotFree(rest, i - n, j - n);
      } else if j >= n {
        DotFreeMeans(s, i, j, n - 1);
      }
    }
  }

  /** A Secret name has lower-case letters and digits, dashes and single dots in between, and
      never 64 characters in a row without a dot. */
  lemma {:induction false} NamesByCharacter(s: string)
    ensures IsSecretName(s) <==> |s| <= 253 && NameFits(s)
  {
    LabelsByCharacter(s);
  }

  lemma FirstOfAll(first: string, parts: seq<string>)
    ensures AllLabels([first] + parts) <==> IsLabel(first) && AllLabels(parts)
    ensures NoneEmpty([first] + parts) <==> first != [] && NoneEmpty(parts)
  {
    var all := [first] + parts;
    assert all[0] == first && forall i | 0 <= i < |parts| :: all[i + 1] == parts[i];
  }

  lemma {:induction false} LabelsByCharacter(s: string)
    ensures AllLabels(Split(s, '.')) <==> NameFits(s)
    decreases |s|
  {
    var first, rest := FirstPart(s);
    if '.' in s {
      LabelsByCharacter(rest);
      FirstOfAll(first, Split(rest, '.'));
      JoinedNameFits(first, rest);
      if IsLabel(first) && NameFits(rest) { NamesJoin(first, rest); }
    } else {
      assert Split(s, '.') == [s] + [];
      FirstOfAll(s, []);
      OneLabel(s);
    }
  }

  lemma OneLabel(s: string)
    requires '.' !in s
    ensures IsLabel(s) <==> NameFits(s)
  {
    assert s[0..|s|] == s && DotFree(s, 0, |s|);
    if IsLabel(s) {
      forall i | 0 <= i < |s| ensures NameCharFits(s, i) {}
    }
    if NameFits(s) {
      assert NameCharFits(s, 0) && NameCharFits(s, |s| - 1);
      forall i | 0 <= i < |s| ensures LowerOrDigit(s[i]) || s[i] == '-' { assert NameCharFits(s, i); }
    }
  }

  lemma PathsJoin(first: string, rest: string)
    requires '.' !in first
    ensures PathFits(first + "." + rest) <==> first != [] && PathFits(rest)
  {
    var s, n := first + "." + rest, |first| + 1;
    assert s[n - 1] == '.' && forall i | 0 <= i < |rest| :: s[n + i] == rest[i];
    assert forall i | 0 <= i < |first| :: s[i] == first[i];
    if PathFits(s) {
      forall i | 0 <= i < |rest| && rest[i] == '.' ensures !AtEdge(rest, i) { assert !AtEdge(s, n + i); }
    }
    if first != [] && PathFits(rest) {
      forall i | 0 <= i < |s| && s[i] == '.' ensures !AtEdge(s, i) {
        if i >= n { assert !AtEdge(rest, i - n); }
      }
    }
  }

  /** A mapping path has no dot at an end or beside another. */
  lemma {:induction false} PathsByCharacter(s: string)
    ensures IsMappingPath(s) <==> PathFits(s)
    decreases |s|
  {
    var first, rest := FirstPart(s);
    if '.' in s {
      PathsByCharacter(rest);
      FirstOfAll(first, Split(rest, '.'));
      PathsJoin(first, rest);
      assert rest == [] ==> Split(rest, '.')[0] == [];
    }
  }

  predicate Acceptable(e: Entry) {
    && e.Entry? && !e.hasOtherKeys
    && e.path.Some? && IsMappingPath(e.path.value)
    && e.secretName.Some? && IsSecretName(e.secretName.value)
    && e.secretKey.Some? && IsSecretKey(e.secretKey.value)
  }

  predicate KeyCharFits(c: char) {
    'a' <= c <= 'z' || 'A' <= c <= 'Z' || '0' <= c <= '9' || c == '.' || c == '_' || c == '-'
  }

  /** What is accepted of an entry: three strings of the right form and nothing else. */
  lemma AcceptableExactly(e: Entry)
    ensures
      Acceptable(e) <==>
        match e
        case NotAnObject => false
        case Entry(path, secretName, secretKey, hasOtherKeys) =>
          && !hasOtherKeys
          && path.Some? && PathFits(path.value)
          && secretName.Some? && |secretName.value| <= 253 && NameFits(secretName.value)
          && secretKey.Some? && 1 <= |secretKey.value| <= 253
          && forall i | 0 <= i < |secretKey.value| :: KeyCharFits(secretKey.value[i])
  {
    if e.Entry? {
      if e.path.Some? { PathsByCharacter(e.path.value); }
      if e.secretName.Some? { NamesByCharacter(e.secretName.value); }
      if e.secretKey.Some? { KeysByCharacter(e.secretKey.value); }
    }
  }

  lemma KeysByCharacter(key: string)
    ensures IsSecretKey(key) <==> 1 <= |key| <= 253 && forall i | 0 <= i < |key| :: KeyCharFits(key[i])
  {
    forall c: char ensures LowerOrDigit(c) || 'A' <= c <= 'Z' || c in "._-" <==> KeyCharFits(c) {
      assert "._-"[0] == '.' && "._-"[1] == '_' && "._-"[2] == '-';
    }
  }

  function MappingOf(e: Entry): Mapping
    requires Acceptable(e)
  {
    Mapping(Split(e.path.value, '.'), Reference(e.secretName.value, e.secretKey.value))
  }

  /** The mapping of an entry: its dotted path taken apart, and its own name and key. */
  predicate IsMappingFor(m: Mapping, e: Entry) {
    && e.Entry? && e.path.Some? && e.secretName.Some? && e.secretKey.Some?
    && Join(m.path, '.') == e.path.value && Free(m.path, '.')
    && m.reference.secretName == e.secretName.value
    && m.reference.secretKey == e.secretKey.value
  }

  lemma {:induction false} PartsAreFree(s: string, sep: char)
    ensures Free(Split(s, sep), sep)
  {
    if s != [] { PartsAreFree(s[1..], sep); }
  }

  lemma MappingIsFor(e: Entry)
    requires Acceptable(e)
    ensures IsMappingFor(MappingOf(e), e)
  {
    JoinAfterSplit(e.path.value, '.');
    PartsAreFree(e.path.value, '.');
  }

  predicate Overlap(p: Path, q: Path) {
    p <= q || q <= p
  }

  predicate PrefixFree(mappings: seq<Mapping>) {
    forall i, j | 0 <= i < j < |mappings| :: !Overlap(mappings[i].path, mappings[j].path)
  }

  predicate Unmasked(r: Reference) {
    Leaf(r.secretName) != MASKED && Leaf(r.secretKey) != MASKED
  }

  /** What `apply_secret_mappings` gets from its caller. */
  predicate Validated(mappings: seq<Mapping>) {
    PrefixFree(mappings) && forall i | 0 <= i < |mappings| :: mappings[i].path != [] && Unmasked(mappings[i].reference)
  }

  lemma {:induction false} FirstPartIsPrefix(s: string)
    ensures Split(s, '.')[0] <= s
  {
    if s != [] { FirstPartIsPrefix(s[1..]); }
  }

  lemma NameIsNotMask(name: string)
    requires IsSecretName(name)
    ensures Leaf(name) != MASKED
  {
    FirstPartIsPrefix(name);
    assert IsLabel(Split(name, '.')[0]);
    assert LowerOrDigit(name[0]) && MASKED.text[0] == '*';
  }

  lemma KeyIsNotMask(key: string)
    requires IsSecretKey(key)
    ensures Leaf(key) != MASKED
  {
    assert key[0] != '*' && MASKED.text[0] == '*';
  }

  lemma AcceptableIsUnmasked(e: Entry)
    requires Acceptable(e)
    ensures MappingOf(e).path != [] && Unmasked(MappingOf(e).reference)
  {
    NameIsNotMask(e.secretName.value);
    KeyIsNotMask(e.secretKey.value);
  }

  predicate Compatible(entries: seq<Entry>) {
    && (forall i | 0 <= i < |entries| :: Acceptable(entries[i]))
    && PrefixFree(MappingsOf(entries))
  }

  function MappingsOf(entries: seq<Entry>): seq<Mapping>
    requires forall i | 0 <= i < |entries| :: Acceptable(entries[i])
  {
    seq(|entries|, i requires 0 <= i < |entries| => MappingOf(entries[i]))
  }

  lemma AppendKeepsValid(mappings: seq<Mapping>, m: Mapping)
    requires Validated(mappings) && m.path != [] && Unmasked(m.reference)
    requires forall i | 0 <= i < |mappings| :: !Overlap(m.path, mappings[i].path)
    ensures Validated(mappings + [m])
  {
  }

  function Paths(mappings: seq<Mapping>): set<Path> {
    set m | m in mappings :: m.path
  }

  predicate Clashes(path: Path, seenPaths: set<Path>) {
    exists p | p in seenPaths :: Overlap(path, p)
  }

  lemma ClashesWhenOverlapping(mappings: seq<Mapping>, m: Mapping)
    ensures Paths(mappings + [m]) == Paths(mappings) + {m.path}
    ensures Clashes(m.path, Paths(mappings)) <==> exists i :: 0 <= i < |mappings| && Overlap(m.path, mappings[i].path)
  {
    forall i | 0 <= i < |mappings|
      ensures mappings[i].path in Paths(mappings)
    {
      assert mappings[i] in mappings;
    }
  }

  lemma ClashSpoils(entries: seq<Entry>, i: nat, j: nat)
    requires i < j < |entries| && forall k | 0 <= k < |entries| :: Acceptable(entries[k])
    requires Overlap(MappingOf(entries[j]).path, MappingOf(entries[i]).path)
    ensures !PrefixFree(MappingsOf(entries))
  {
    var all := MappingsOf(entries);
    assert Overlap(all[i].path, all[j].path);
  }

  /** Accepts a file exactly when every entry is acceptable and no two paths overlap. */
  method LoadSecretMappings(entries: seq<Entry>) returns (r: Attempt<seq<Mapping>>)
    ensures r.Granted? <==> Compatible(entries)
    ensures r.Granted? ==> Validated(r.value) && r.value == MappingsOf(entries) && |r.value| == |entries|
    ensures r.Granted? ==> forall i | 0 <= i < |entries| :: IsMappingFor(r.value[i], entries[i])
  {
    var mappings: seq<Mapping>, seenPaths: set<Path> := [], {};
    for k := 0 to |entries|
      invariant forall i | 0 <= i < k :: Acceptable(entries[i])
      invariant mappings == MappingsOf(entries[..k]) && Validated(mappings)
      invariant seenPaths == Paths(mappings)
    {
      if !Acceptable(entries[k]) { return Refused; }
      var m := MappingOf(entries[k]);
      AcceptableIsUnmasked(entries[k]);
      ClashesWhenOverlapping(mappings, m);
      if Clashes(m.path, seenPaths) {
        var i :| 0 <= i < |mappings| && Overlap(m.path, mappings[i].path);
        if forall j | 0 <= j < |entries| :: Acceptable(entries[j]) { ClashSpoils(entries, i, k); }
        return Refused;
      }
      AppendKeepsValid(mappings, m);
      seenPaths := seenPaths + {m.path};
      mappings := mappings + [m];
    }
    assert entries[..|entries|] == entries;
    forall i | 0 <= i < |entries| ensures IsMappingFor(mappings[i], entries[i]) { MappingIsFor(entries[i]); }
    return Granted(mappings);
  }

  // ---------- replacement of one value ----------

  /** `_remove_masked_values`. */
  function RemoveMaskedValues(t: Tree): Tree {
    match t
    case Dict(entries) => Dict(map k | k in entries && entries[k] != MASKED :: RemoveMaskedValues(entries[k]))
    case List(items) => List(RemoveMaskedItems(items))
    case Leaf(_) => t
  }

  function RemoveMaskedItems(items: seq<Tree>): seq<Tree> {
    if items == [] then []
    else (if items[0] != MASKED then [RemoveMaskedValues(items[0])] else []) + RemoveMaskedItems(items[1..])
  }

  function ReferenceEntries(r: Reference): map<string, Tree> {
    map["secretName" := Leaf(r.secretName), "secretKey" := Leaf(r.secretKey)]
  }

  /** What is put at a mapped path: the reference, merged into what a dict held unmasked. */
  function Replacement(target: Tree, r: Reference): Tree {
    match target
    case Dict(_) => Dict(RemoveMaskedValues(target).entries + ReferenceEntries(r))
    case _ => Dict(ReferenceEntries(r))
  }

  lemma ReferenceIsUnmasked(r: Reference, path: Path)
    requires Unmasked(r)
    ensures !MaskedAt(Dict(ReferenceEntries(r)), path)
  {
    if path != [] && path[0] in ReferenceEntries(r) {
      assert At(Dict(ReferenceEntries(r)), path) == At(ReferenceEntries(r)[path[0]], path[1..]);
      assert |path| > 1 ==> path[1..] != [];
    }
  }

  lemma RemovedItems(items: seq<Tree>, i: nat)
    requires i < |RemoveMaskedItems(items)|
    ensures exists j :: 0 <= j < |items| && items[j] != MASKED && RemoveMaskedItems(items)[i] == RemoveMaskedValues(items[j])
  {
    var kept := if items[0] != MASKED then 1 else 0;
    if kept <= i {
      RemovedItems(items[1..], i - kept);
      var j :| 0 <= j < |items[1..]| && items[1..][j] != MASKED && RemoveMaskedItems(items[1..])[i - kept] == RemoveMaskedValues(items[1..][j]);
      assert items[j + 1] == items[1..][j];
    }
  }

  /** Removal leaves nothing masked below a value that is not itself the mask. */
  lemma {:induction false} RemovalIsComplete(t: Tree, path: Path)
    requires t != MASKED
    ensures !MaskedAt(RemoveMaskedValues(t), path)
    decreases |path|
  {
    var removed := RemoveMaskedValues(t);
    if path != [] && Part(removed, path[0]).Some? {
      match t
      case Leaf(_) =>
      case Dict(entries) => RemovalIsComplete(entries[path[0]], path[1..]);
      case List(items) =>
        var i := Number(path[0]);
        RemovedItems(items, i);
        var j :| 0 <= j < |items| && items[j] != MASKED && RemoveMaskedItems(items)[i] == RemoveMaskedValues(items[j]);
        RemovalIsComplete(items[j], path[1..]);
    }
  }

  lemma ReplacementIsUnmasked(target: Tree, r: Reference, path: Path)
    requires Unmasked(r)
    ensures !MaskedAt(Replacement(target, r), path)
  {
    ReferenceIsUnmasked(r, path);
    if path != [] && target.Dict? {
      RemovalIsComplete(target, path);
    }
  }

  // ---------- what a replacement keeps ----------

  /** How many of the first `n` items are kept. */
  function KeptBefore(items: seq<Tree>, n: nat): nat
    requires n <= |items|
  {
    if n == 0 then 0 else KeptBefore(items, n - 1) + if items[n - 1] != MASKED then 1 else 0
  }

  /** The path of a value after the masked items before it are gone. */
  function Moved(t: Tree, path: Path): Path
    requires At(t, path).Some?
    decreases |path|
  {
    if path == [] then []
    else
      var part := if t.List? then Decimal(KeptBefore(t.items, Number(path[0]))) else path[0];
      [part] + Moved(Part(t, path[0]).value, path[1..])
  }

  lemma {:induction false} KeptBeforeTail(items: seq<Tree>, n: nat)
    requires 0 < n <= |items|
    ensures KeptBefore(items, n) == KeptBefore(items[1..], n - 1) + if items[0] != MASKED then 1 else 0
  {
    if n > 1 { KeptBeforeTail(items, n - 1); }
  }

  lemma {:induction false} KeptCount(items: seq<Tree>, n: nat)
    requires n <= |items|
    ensures |RemoveMaskedItems(items)| == KeptBefore(items, |items|)
    ensures KeptBefore(items, n) + (if n < |items| && items[n] != MASKED then 1 else 0) <= KeptBefore(items, |items|)
  {
    if items != [] {
      KeptBeforeTail(items, |items|);
      KeptCount(items[1..], if n > 0 then n - 1 else 0);
      if n > 0 { KeptBeforeTail(items, n); }
    }
  }

  /** List items are kept in their order: an unmasked one moves up by the masked ones before it. */
  lemma {:induction false} ItemsKeptInOrder(items: seq<Tree>, n: nat)
    requires n <= |items|
    ensures |RemoveMaskedItems(items)| == KeptBefore(items, |items|)
    ensures KeptBefore(items, n) <= KeptBefore(items, |items|)
    ensures
      n < |items| && items[n] != MASKED ==>
        && KeptBefore(items, n) < KeptBefore(items, |items|)
        && RemoveMaskedItems(items)[KeptBefore(items, n)] == RemoveMaskedValues(items[n])
  {
    KeptCount(items, n);
    if 0 < n < |items| && items[n] != MASKED {
      KeptBeforeTail(items, n);
      KeptCount(items[1..], n - 1);
      ItemsKeptInOrder(items[1..], n - 1);
    }
  }

  /** Every unmasked value is kept, without the masked values in it. */
  lemma {:induction false} RemovalKeepsUnmasked(t: Tree, path: Path)
    requires At(t, path).Some? && At(t, path).value != MASKED
    ensures At(RemoveMaskedValues(t), Moved(t, path)) == Some(RemoveMaskedValues(At(t, path).value))
    decreases |path|
  {
    if path != [] {
      var c := Part(t, path[0]).value;
      assert c != MASKED;
      RemovalKeepsUnmasked(c, path[1..]);
      if t.List? {
        var n := Number(path[0]);
        ItemsKeptInOrder(t.items, n);
        DecimalRoundTrip(KeptBefore(t.items, n));
      }
      assert Part(RemoveMaskedValues(t), Moved(t, path)[0]) == Some(RemoveMaskedValues(c));
      assert Moved(t, path)[1..] == Moved(c, path[1..]);
    }
  }

  /** The item that an item of the result was. */
  lemma {:induction false} KeptItemWas(items: seq<Tree>, i: nat) returns (n: nat)
    requires i < |RemoveMaskedItems(items)|
    ensures n < |items| && items[n] != MASKED && KeptBefore(items, n) == i
    ensures RemoveMaskedItems(items)[i] == RemoveMaskedValues(items[n])
  {
    if items[0] != MASKED && i == 0 {
      n := 0;
    } else {
      var m := KeptItemWas(items[1..], if items[0] != MASKED then i - 1 else i);
      n := m + 1;
      KeptBeforeTail(items, n);
    }
  }

  /** Nothing is invented either: whatever is found after removal was there. */
  lemma {:induction false} RemovalInventsNothing(t: Tree, path: Path) returns (q: Path)
    requires t != MASKED && At(RemoveMaskedValues(t), path).Some?
    ensures At(t, q).Some? && At(t, q).value != MASKED && Moved(t, q) == path
    ensures At(RemoveMaskedValues(t), path) == Some(RemoveMaskedValues(At(t, q).value))
    decreases |path|
  {
    if path == [] {
      q := [];
    } else {
      var part := path[0];
      if t.List? {
        var n := KeptItemWas(t.items, Number(path[0]));
        DecimalRoundTrip(n);
        part := Decimal(n);
      }
      var c := Part(t, part).value;
      var rest := RemovalInventsNothing(c, path[1..]);
      q := [part] + rest;
      assert q[1..] == rest && path == [path[0]] + path[1..];
    }
  }

  const FIELDS: set<string> := {"secretName", "secretKey"}

  predicate IsLeafAt(t: Tree, path: Path, text: string) {
    At(t, path) == Some(Leaf(text))
  }

  /** A leaf of the reference itself. */
  predicate IsReferenceField(r: Reference, path: Path, text: string) {
    (path == ["secretName"] && text == r.secretName) || (path == ["secretKey"] && text == r.secretKey)
  }

  /** `path` is where an unmasked leaf of a dict that the reference does not overwrite goes. */
  ghost predicate IsKeptField(target: Tree, path: Path, text: string) {
    && target.Dict? && path != [] && path[0] !in FIELDS && Leaf(text) != MASKED
    && exists q: Path :: IsLeafAt(target, q, text) && Moved(target, q) == path
  }

  lemma ReferenceLeaves(r: Reference, path: Path, text: string)
    ensures IsLeafAt(Dict(ReferenceEntries(r)), path, text) <==> IsReferenceField(r, path, text)
  {
    if path != [] && path[0] in ReferenceEntries(r) {
      assert At(Dict(ReferenceEntries(r)), path) == At(ReferenceEntries(r)[path[0]], path[1..]);
      assert path == [path[0]] + path[1..];
      assert |path| > 1 ==> path[1..] != [];
    }
  }

  lemma KeptLeaves(target: Tree, path: Path, text: string)
    requires target.Dict?
    ensures
      IsLeafAt(RemoveMaskedValues(target), path, text) <==>
        Leaf(text) != MASKED && exists q: Path :: IsLeafAt(target, q, text) && Moved(target, q) == path
  {
    if IsLeafAt(RemoveMaskedValues(target), path, text) {
      var q := RemovalInventsNothing(target, path);
      assert IsLeafAt(target, q, text);
    }
    if Leaf(text) != MASKED && exists q: Path :: IsLeafAt(target, q, text) && Moved(target, q) == path {
      var q: Path :| IsLeafAt(target, q, text) && Moved(target, q) == path;
      RemovalKeepsUnmasked(target, q);
    }
  }

  /** All that is found where a target was replaced: the two fields of the reference, and the
      unmasked leaves of a dict below its other keys. A list or a scalar leaves nothing. */
  lemma ReplacementLeaves(target: Tree, r: Reference, path: Path, text: string)
    ensures IsLeafAt(Replacement(target, r), path, text) <==> IsReferenceField(r, path, text) || IsKeptField(target, path, text)
  {
    ReferenceLeaves(r, path, text);
    if target.Dict? && path != [] {
      KeptLeaves(target, path, text);
      if path[0] in FIELDS {
        assert At(Replacement(target, r), path) == At(Dict(ReferenceEntries(r)), path);
      } else {
        assert At(Replacement(target, r), path) == At(RemoveMaskedValues(target), path);
      }
    }
  }

  /** So an unmasked element beside a masked one is lost when the mapping targets their list. */
  lemma ListElementLost(unmasked: Tree, r: Reference, path: Path, text: string)
    ensures IsLeafAt(Replacement(List([MASKED, unmasked]), r), path, text) ==> IsReferenceField(r, path, text)
    ensures !IsLeafAt(Replacement(unmasked, r), path, text) || unmasked.Dict? || IsReferenceField(r, path, text)
  {
    ReplacementLeaves(List([MASKED, unmasked]), r, path, text);
    ReplacementLeaves(unmasked, r, path, text);
  }

  predicate ThroughDicts(t: Tree, path: Path)
    requires At(t, path).Some?
    decreases |path|
  {
    path == [] || (t.Dict? && ThroughDicts(Part(t, path[0]).value, path[1..]))
  }

  lemma {:induction false} DictsDoNotMove(t: Tree, path: Path)
    requires At(t, path).Some? && ThroughDicts(t, path)
    ensures Moved(t, path) == path
    decreases |path|
  {
    if path != [] {
      DictsDoNotMove(Part(t, path[0]).value, path[1..]);
      assert path == [path[0]] + path[1..];
    }
  }

  /** An unmasked leaf below dict keys alone keeps its place, unless its first key is one of
      the reference's fields: then the reference's value is there. */
  lemma DictFieldKept(target: Tree, r: Reference, path: Path, text: string)
    requires path != [] && IsLeafAt(target, path, text) && ThroughDicts(target, path) && Leaf(text) != MASKED
    ensures IsLeafAt(Replacement(target, r), path, text) <==> path[0] !in FIELDS || IsReferenceField(r, path, text)
  {
    DictsDoNotMove(target, path);
    ReplacementLeaves(target, r, path, text);
  }

  // ---------- what the edits amount to ----------

  type Table = map<Path, Reference>

  function TableOf(mappings: seq<Mapping>): Table {
    if mappings == [] then map[]
    else
      var m := mappings[|mappings| - 1];
      TableOf(mappings[..|mappings| - 1])[m.path := m.reference]
  }

  /** Every mapped value replaced at once, top down. */
  function Substitute(t: Tree, here: Path, table: Table): Tree {
    if here in table then Replacement(t, table[here])
    else
      match t
      case Dict(entries) => Dict(map k | k in entries :: Substitute(entries[k], here + [k], table))
      case List(items) => List(seq(|items|, i requires 0 <= i < |items| => Substitute(items[i], here + [Decimal(i)], table)))
      case Leaf(_) => t
  }

  /** No mapped path lies at or below `here`. */
  ghost predicate Untouched(here: Path, table: Table) {
    forall p | p in table :: !(here <= p)
  }

  lemma {:induction false} SubstituteUntouched(t: Tree, here: Path, table: Table)
    requires Untouched(here, table)
    ensures Substitute(t, here, table) == t
    decreases t
  {
    assert here <= here;
    forall part
      ensures Untouched(here + [part], table)
    {
      forall p | p in table ensures !(here + [part] <= p) { assert !(here <= p); }
    }
    match t
    case Leaf(_) =>
    case Dict(entries) =>
      forall k | k in entries ensures Substitute(entries[k], here + [k], table) == entries[k] {
        SubstituteUntouched(entries[k], here + [k], table);
      }
    case List(items) =>
      forall i | 0 <= i < |items| ensures Substitute(items[i], here + [Decimal(i)], table) == items[i] {
        SubstituteUntouched(items[i], here + [Decimal(i)], table);
      }
  }

  ghost predicate AgreeBelow(here: Path, a: Table, b: Table) {
    forall p | p in a || p in b :: here <= p ==> p in a && p in b && a[p] == b[p]
  }

  lemma AgreeAtChild(here: Path, part: string, a: Table, b: Table)
    requires AgreeBelow(here, a, b)
    ensures AgreeBelow(here + [part], a, b)
  {
    assert forall p | p in a || p in b :: here + [part] <= p ==> here <= p;
  }

  lemma {:induction false} SubstituteAgrees(t: Tree, here: Path, a: Table, b: Table)
    requires AgreeBelow(here, a, b)
    ensures Substitute(t, here, a) == Substitute(t, here, b)
    decreases t
  {
    assert here in a || here in b ==> here <= here;
    match t
    case Leaf(_) =>
    case Dict(entries) =>
      forall k | k in entries ensures Substitute(entries[k], here + [k], a) == Substitute(entries[k], here + [k], b) {
        AgreeAtChild(here, k, a, b);
        SubstituteAgrees(entries[k], here + [k], a, b);
      }
    case List(items) =>
      forall i | 0 <= i < |items|
        ensures Substitute(items[i], here + [Decimal(i)], a) == Substitute(items[i], here + [Decimal(i)], b)
      {
        AgreeAtChild(here, Decimal(i), a, b);
        SubstituteAgrees(items[i], here + [Decimal(i)], a, b);
      }
  }

  /** A new entry of the table changes only what is below its own path. */
  lemma AgreeBeside(here: Path, rest: Path, part: string, table: Table, r: Reference)
    requires rest != [] && part != rest[0]
    ensures AgreeBelow(here + [part], table, table[here + rest := r])
  {
    assert (here + [part])[|here|] == part && (here + rest)[|here|] == rest[0];
    assert !(here + [part] <= here + rest);
  }

  ghost predicate Beside(path: Path, table: Table) {
    forall p | p in table :: !Overlap(p, path)
  }

  lemma OtherEntriesAgree(t: Tree, here: Path, rest: Path, table: Table, r: Reference)
    requires t.Dict? && rest != []
    ensures
      forall k | k in t.entries && k != rest[0] ::
        Substitute(t.entries[k], here + [k], table[here + rest := r]) == Substitute(t.entries[k], here + [k], table)
  {
    forall k | k in t.entries && k != rest[0]
      ensures Substitute(t.entries[k], here + [k], table[here + rest := r]) == Substitute(t.entries[k], here + [k], table)
    {
      AgreeBeside(here, rest, k, table, r);
      SubstituteAgrees(t.entries[k], here + [k], table, table[here + rest := r]);
    }
  }

  lemma OtherItemsAgree(t: Tree, here: Path, rest: Path, table: Table, r: Reference)
    requires t.List? && rest != [] && Part(t, rest[0]).Some?
    ensures
      forall i | 0 <= i < |t.items| && i != Number(rest[0]) ::
        Substitute(t.items[i], here + [Decimal(i)], table[here + rest := r]) == Substitute(t.items[i], here + [Decimal(i)], table)
  {
    forall i | 0 <= i < |t.items| && i != Number(rest[0])
      ensures
        Substitute(t.items[i], here + [Decimal(i)], table[here + rest := r]) == Substitute(t.items[i], here + [Decimal(i)], table)
    {
      DecimalRoundTrip(i);
      AgreeBeside(here, rest, Decimal(i), table, r);
      SubstituteAgrees(t.items[i], here + [Decimal(i)], table, table[here + rest := r]);
    }
  }

  /** One in-place edit at a path that overlaps no earlier one extends the substitution. */
  lemma {:induction false} EditExtendsSubstitution(t: Tree, here: Path, rest: Path, table: Table, r: Reference)
    requires At(t, rest).Some? && Beside(here + rest, table)
    ensures Get(Substitute(t, here, table), rest) == At(t, rest)
    ensures Substitute(t, here, table[here + rest := r]) == Set(Substitute(t, here, table), rest, Replacement(At(t, rest).value, r))
    decreases |rest|
  {
    var after := table[here + rest := r];
    if rest == [] {
      assert here + rest == here;
      assert Untouched(here, table);
      SubstituteUntouched(t, here, table);
    } else {
      var part, c := rest[0], Part(t, rest[0]).value;
      assert here <= here + rest;
      assert here !in table && here !in after;
      assert (here + [part]) + rest[1..] == here + rest;
      EditExtendsSubstitution(c, here + [part], rest[1..], table, r);
      if t.Dict? {
        OtherEntriesAgree(t, here, rest, table, r);
        assert Substitute(t, here, after).entries
            == Substitute(t, here, table).entries[part := Substitute(c, here + [part], after)];
      } else {
        OtherItemsAgree(t, here, rest, table, r);
        assert Substitute(t, here, after).items
            == Substitute(t, here, table).items[Number(part) := Substitute(c, here + [part], after)];
      }
    }
  }

  // ---------- what the substitution keeps ----------

  ghost predicate Reached(here: Path, q: Path, table: Table) {
    forall n | 0 <= n < |q| :: here + q[..n] !in table
  }

  lemma ReachedChild(here: Path, q: Path, table: Table)
    requires q != []
    ensures Reached(here, q, table) <==> here !in table && Reached(here + [q[0]], q[1..], table)
  {
    assert forall n | 0 <= n < |q[1..]| :: here + q[..n + 1] == here + [q[0]] + q[1..][..n];
    assert here + q[..0] == here;
    if here !in table && Reached(here + [q[0]], q[1..], table) {
      forall n | 0 <= n < |q| ensures here + q[..n] !in table {
        if n > 0 { assert here + q[..n] == here + [q[0]] + q[1..][..n - 1]; }
      }
    }
  }

  /** Below no mapped path the tree keeps its shape, down to the substitution that is due. */
  lemma {:induction false} SubstitutedAt(t: Tree, here: Path, q: Path, table: Table)
    requires Reached(here, q, table)
    ensures
      At(Substitute(t, here, table), q) ==
      match At(t, q)
      case None => None
      case Some(u) => Some(Substitute(u, here + q, table))
    decreases |q|
  {
    if q == [] {
      assert here + q == here;
    } else {
      ReachedChild(here, q, table);
      assert here + q == here + [q[0]] + q[1..];
      var p := Part(t, q[0]);
      if p.Some? { SubstitutedAt(p.value, here + [q[0]], q[1..], table); }
    }
  }

  ghost predicate Covered(here: Path, q: Path, table: Table) {
    exists n | 0 <= n <= |q| :: here + q[..n] in table
  }

  lemma CoveredChild(here: Path, q: Path, table: Table)
    requires q != [] && here !in table
    ensures Covered(here, q, table) <==> Covered(here + [q[0]], q[1..], table)
  {
    assert forall n | 0 <= n <= |q[1..]| :: here + q[..n + 1] == here + [q[0]] + q[1..][..n];
    assert here + q[..0] == here;
    if Covered(here, q, table) {
      var n :| 0 <= n <= |q| && here + q[..n] in table;
      assert here + q[..n] == here + [q[0]] + q[1..][..n - 1];
    }
  }

  /** The values masked after the substitution are those that no mapping covers. */
  lemma {:induction false} MaskedAfter(t: Tree, here: Path, q: Path, table: Table)
    requires forall p | p in table :: Unmasked(table[p])
    ensures MaskedAt(Substitute(t, here, table), q) <==> MaskedAt(t, q) && !Covered(here, q, table)
    decreases |q|
  {
    assert here + q[..0] == here;
    if here in table {
      ReplacementIsUnmasked(t, table[here], q);
    } else if q != [] {
      CoveredChild(here, q, table);
      var p := Part(t, q[0]);
      if p.Some? { MaskedAfter(p.value, here + [q[0]], q[1..], table); }
    }
  }

  // ---------- tables ----------

  lemma {:induction false} TableHolds(mappings: seq<Mapping>, p: Path)
    requires Validated(mappings)
    ensures p in TableOf(mappings) <==> exists i :: 0 <= i < |mappings| && mappings[i].path == p
    ensures p in TableOf(mappings) ==> Unmasked(TableOf(mappings)[p])
    ensures forall i | 0 <= i < |mappings| && mappings[i].path == p :: p in TableOf(mappings) && TableOf(mappings)[p] == mappings[i].reference
  {
    if mappings != [] {
      var last := |mappings| - 1;
      TableHolds(mappings[..last], p);
      assert forall i | 0 <= i < last :: mappings[i] == mappings[..last][i];
      assert forall i | 0 <= i < last :: Overlap(p, p) && !Overlap(mappings[i].path, mappings[last].path);
    }
  }

  lemma PrefixesOverlap(a: Path, b: Path, p: Path)
    requires a <= p && b <= p
    ensures Overlap(a, b)
  {
  }

  predicate CoveredBy(mappings: seq<Mapping>, p: Path) {
    exists i | 0 <= i < |mappings| :: mappings[i].path <= p
  }

  lemma CoveredWasMapped(mappings: seq<Mapping>, q: Path)
    requires Validated(mappings) && Covered([], q, TableOf(mappings))
    ensures CoveredBy(mappings, q)
  {
    var n :| 0 <= n <= |q| && [] + q[..n] in TableOf(mappings);
    TableHolds(mappings, [] + q[..n]);
    assert [] + q[..n] == q[..n] && q[..n] <= q;
  }

  lemma MappedIsCovered(mappings: seq<Mapping>, q: Path)
    requires Validated(mappings) && CoveredBy(mappings, q)
    ensures Covered([], q, TableOf(mappings))
  {
    var i :| 0 <= i < |mappings| && mappings[i].path <= q;
    var p := mappings[i].path;
    TableHolds(mappings, p);
    assert [] + q[..|p|] == p;
  }

  lemma CoveredIsMapped(mappings: seq<Mapping>, q: Path)
    requires Validated(mappings)
    ensures Covered([], q, TableOf(mappings)) <==> CoveredBy(mappings, q)
  {
    if Covered([], q, TableOf(mappings)) { CoveredWasMapped(mappings, q); }
    if CoveredBy(mappings, q) { MappedIsCovered(mappings, q); }
  }

  // ---------- the procedure ----------

  predicate Covers(m: Mapping, masked: set<Path>) {
    exists p | p in masked :: m.path <= p
  }

  predicate AllCover(mappings: seq<Mapping>, masked: set<Path>) {
    forall i | 0 <= i < |mappings| :: Covers(mappings[i], masked)
  }

  function Uncovered(masked: set<Path>, mappings: seq<Mapping>): set<Path> {
    set p | p in masked && !CoveredBy(mappings, p)
  }

  /** The mappings fit the tree: each covers a masked value, and each masked value is covered. */
  predicate Exact(t: Tree, mappings: seq<Mapping>) {
    AllCover(mappings, Walk(t)) && forall p | p in Walk(t) :: CoveredBy(mappings, p)
  }

  /** `_get_parent_for_path`. */
  method GetParentForPath(configs: Tree, path: Path) returns (r: Attempt<Tree>)
    requires path != []
    ensures Get(configs, path[..|path| - 1]) == if r.Granted? then Some(r.value) else None
  {
    var current, last := configs, |path| - 1;
    for k := 0 to last
      invariant Get(configs, path[..last]) == Get(current, path[k..last])
    {
      assert path[k..last][1..] == path[k + 1..last];
      match Child(current, path[k]) {
        case None => return Refused;
        case Some(c) => current := c;
      }
    }
    return Granted(current);
  }

  lemma LeafLookup(t: Tree, path: Path)
    requires path != []
    ensures
      Get(t, path) ==
      match Get(t, path[..|path| - 1])
      case None => None
      case Some(parent) => Child(parent, path[|path| - 1])
  {
    if |path| == 1 {
      assert path[..0] == [] && path[1..] == [];
    } else if Child(t, path[0]).Some? {
      LeafLookup(Child(t, path[0]).value, path[1..]);
      assert path[1..][..|path| - 2] == path[..|path| - 1][1..];
    }
  }

  lemma CoveredByMore(done: seq<Mapping>, m: Mapping, p: Path)
    ensures CoveredBy(done + [m], p) <==> CoveredBy(done, p) || m.path <= p
  {
    assert (done + [m])[|done|] == m;
    assert forall i | 0 <= i < |done| :: (done + [m])[i] == done[i];
  }

  lemma AllCoverMore(done: seq<Mapping>, m: Mapping, masked: set<Path>)
    ensures AllCover(done + [m], masked) <==> AllCover(done, masked) && Covers(m, masked)
  {
    assert (done + [m])[|done|] == m;
    assert forall i | 0 <= i < |done| :: (done + [m])[i] == done[i];
  }

  lemma ValidatedParts(done: seq<Mapping>, m: Mapping)
    requires Validated(done + [m])
    ensures Validated(done) && m.path != [] && Unmasked(m.reference)
    ensures forall i | 0 <= i < |done| :: !Overlap(done[i].path, m.path)
  {
    assert (done + [m])[|done|] == m;
    assert forall i | 0 <= i < |done| :: (done + [m])[i] == done[i];
  }

  function CoveredNow(masked: set<Path>, m: Mapping): set<Path> {
    set p | p in masked && m.path <= p
  }

  /** Earlier mappings leave a later one all its masked paths. */
  lemma StillToCover(masked: set<Path>, done: seq<Mapping>, m: Mapping)
    requires Validated(done + [m])
    ensures CoveredNow(Uncovered(masked, done), m) == CoveredNow(masked, m)
    ensures CoveredNow(masked, m) == {} <==> !Covers(m, masked)
    ensures Uncovered(masked, done + [m]) == Uncovered(masked, done) - CoveredNow(masked, m)
  {
    ValidatedParts(done, m);
    forall p | p in CoveredNow(masked, m)
      ensures !CoveredBy(done, p)
    {
      forall i | 0 <= i < |done| ensures !(done[i].path <= p) {
        if done[i].path <= p { PrefixesOverlap(done[i].path, m.path, p); }
      }
    }
    forall p ensures CoveredBy(done + [m], p) <==> CoveredBy(done, p) || m.path <= p { CoveredByMore(done, m, p); }
    if Covers(m, masked) {
      var p :| p in masked && m.path <= p;
      assert p in CoveredNow(masked, m);
    }
  }

  /** The target of a covering mapping exists and is still what it was. */
  lemma TargetIsIntact(configs: Tree, done: seq<Mapping>, m: Mapping)
    requires Validated(done + [m]) && Covers(m, Walk(configs))
    ensures At(configs, m.path).Some? && Get(Substitute(configs, [], TableOf(done)), m.path) == At(configs, m.path)
    ensures
      Substitute(configs, [], TableOf(done + [m]))
      == Set(Substitute(configs, [], TableOf(done)), m.path, Replacement(At(configs, m.path).value, m.reference))
  {
    var p :| p in Walk(configs) && m.path <= p;
    WalkFindsMasked(configs, p);
    PrefixExists(configs, m.path, p);
    ValidatedParts(done, m);
    assert [] + m.path == m.path;
    forall q | q in TableOf(done) ensures !Overlap(q, m.path) { TableHolds(done, q); }
    EditExtendsSubstitution(configs, [], m.path, TableOf(done), m.reference);
    assert (done + [m])[..|done|] == done;
  }

  lemma LeftMasked(configs: Tree, mappings: seq<Mapping>)
    requires Validated(mappings)
    ensures Walk(Substitute(configs, [], TableOf(mappings))) == Uncovered(Walk(configs), mappings)
  {
    forall p | p in TableOf(mappings) ensures Unmasked(TableOf(mappings)[p]) { TableHolds(mappings, p); }
    forall q
      ensures q in Walk(Substitute(configs, [], TableOf(mappings))) <==> q in Uncovered(Walk(configs), mappings)
    {
      WalkFindsMasked(configs, q);
      WalkFindsMasked(Substitute(configs, [], TableOf(mappings)), q);
      MaskedAfter(configs, [], q, TableOf(mappings));
      CoveredIsMapped(mappings, q);
    }
  }

  lemma ExactWhenNoneLeft(t: Tree, mappings: seq<Mapping>)
    ensures Exact(t, mappings) <==> AllCover(mappings, Walk(t)) && Uncovered(Walk(t), mappings) == {}
  {
    forall p | p in Walk(t) ensures CoveredBy(mappings, p) <==> p !in Uncovered(Walk(t), mappings) {}
  }

  lemma PrefixOfValidated(mappings: seq<Mapping>, k: nat)
    requires Validated(mappings) && k < |mappings|
    ensures mappings[..k + 1] == mappings[..k] + [mappings[k]] && Validated(mappings[..k + 1])
  {
  }

  /** The edit made for one mapping: lookup of parent and target, replacement. */
  method ReplaceTarget(configs: Tree, m: Mapping) returns (r: Attempt<Tree>)
    requires m.path != []
    ensures r.Granted? <==> Get(configs, m.path).Some?
    ensures r.Granted? ==> r.value == Set(configs, m.path, Replacement(Get(configs, m.path).value, m.reference))
  {
    LeafLookup(configs, m.path);
    var parent := GetParentForPath(configs, m.path);
    if parent.Refused? { return Refused; }
    var target := Child(parent.value, m.path[|m.path| - 1]);
    if target.None? { return Refused; }
    return Granted(Set(configs, m.path, Replacement(target.value, m.reference)));
  }

  datatype Applied = Applied(configs: Tree, resolved: set<Path>)

  /** Edits one mapping after the other, and succeeds exactly when the mappings fit; the
      edits then amount to one simultaneous substitution that leaves nothing masked. */
  method ApplySecretMappings(configs: Tree, mappings: seq<Mapping>) returns (r: Attempt<Applied>)
    requires Validated(mappings)
    ensures r.Granted? <==> Exact(configs, mappings)
    ensures r.Granted? ==> r.value.configs == Substitute(configs, [], TableOf(mappings)) && r.value.resolved == Walk(configs)
    ensures r.Granted? ==> Walk(r.value.configs) == {}
  {
    var current, masked := configs, Walk(configs);
    SubstituteUntouched(configs, [], map[]);
    ExactWhenNoneLeft(configs, mappings);
    for k := 0 to |mappings|
      invariant current == Substitute(configs, [], TableOf(mappings[..k]))
      invariant masked == Uncovered(Walk(configs), mappings[..k])
      invariant AllCover(mappings[..k], Walk(configs))
    {
      var m := mappings[k];
      PrefixOfValidated(mappings, k);
      StillToCover(Walk(configs), mappings[..k], m);
      AllCoverMore(mappings[..k], m, Walk(configs));
      var covered := CoveredNow(masked, m);
      if covered == {} { return Refused; }
      TargetIsIntact(configs, mappings[..k], m);
      var edited := ReplaceTarget(current, m);
      if edited.Refused? { return Refused; }
      current, masked := edited.value, masked - covered;
    }
    assert mappings[..|mappings|] == mappings;
    LeftMasked(configs, mappings);
    if Walk(current) != {} { return Refused; }
    return Granted(Applied(current, Walk(configs)));
  }

  // ---------- what the result is, path by path ----------

  predicate SameShape(t: Tree, u: Tree) {
    match t
    case Leaf(_) => u == t
    case Dict(entries) => u.Dict? && u.entries.Keys == entries.Keys
    case List(items) => u.List? && |u.items| == |items|
  }

  lemma PathsReached(mappings: seq<Mapping>, q: Path)
    requires Validated(mappings)
    requires forall i | 0 <= i < |mappings| :: mappings[i].path <= q ==> mappings[i].path == q
    ensures Reached([], q, TableOf(mappings))
  {
    forall n | 0 <= n < |q|
      ensures [] + q[..n] !in TableOf(mappings)
    {
      TableHolds(mappings, [] + q[..n]);
      assert [] + q[..n] == q[..n] && q[..n] <= q;
    }
  }

  /** Each mapped value became its reference, with the unmasked fields of a dict kept. */
  lemma MappedValuesAreReferences(t: Tree, mappings: seq<Mapping>, i: nat)
    requires Validated(mappings) && i < |mappings| && At(t, mappings[i].path).Some?
    ensures
      At(Substitute(t, [], TableOf(mappings)), mappings[i].path)
      == Some(Replacement(At(t, mappings[i].path).value, mappings[i].reference))
  {
    var q := mappings[i].path;
    forall j | 0 <= j < |mappings|
      ensures mappings[j].path <= q ==> j == i
    {
    }
    PathsReached(mappings, q);
    TableHolds(mappings, q);
    SubstitutedAt(t, [], q, TableOf(mappings));
    assert [] + q == q;
  }

  /** The same, leaf by leaf: what is found at and below a mapped path. */
  lemma MappedLeaves(t: Tree, mappings: seq<Mapping>, i: nat, path: Path, text: string)
    requires Validated(mappings) && i < |mappings| && At(t, mappings[i].path).Some?
    ensures
      IsLeafAt(Substitute(t, [], TableOf(mappings)), mappings[i].path + path, text) <==>
        || IsReferenceField(mappings[i].reference, path, text)
        || IsKeptField(At(t, mappings[i].path).value, path, text)
  {
    MappedValuesAreReferences(t, mappings, i);
    AtInTwoSteps(Substitute(t, [], TableOf(mappings)), mappings[i].path, path);
    ReplacementLeaves(At(t, mappings[i].path).value, mappings[i].reference, path, text);
  }

  /** Every value at a path that overlaps no mapped path is unchanged, whole subtree included;
      one above a mapped path keeps its keys or its length. */
  lemma OutsideIsUnchanged(t: Tree, mappings: seq<Mapping>, q: Path)
    requires Validated(mappings) && forall i | 0 <= i < |mappings| :: !(mappings[i].path <= q)
    ensures
      var after := At(Substitute(t, [], TableOf(mappings)), q);
      if forall i | 0 <= i < |mappings| :: !Overlap(mappings[i].path, q) then after == At(t, q)
      else (after.Some? <==> At(t, q).Some?) && (after.Some? ==> SameShape(At(t, q).value, after.value))
  {
    var table := TableOf(mappings);
    PathsReached(mappings, q);
    SubstitutedAt(t, [], q, table);
    assert [] + q == q;
    TableHolds(mappings, q);
    if At(t, q).Some? && forall i | 0 <= i < |mappings| :: !Overlap(mappings[i].path, q) {
      forall p | p in table ensures !(q <= p) { TableHolds(mappings, p); }
      SubstituteUntouched(At(t, q).value, q, table);
    }
  }

  predicate Included(a: seq<Mapping>, b: seq<Mapping>) {
    forall i | 0 <= i < |a| :: a[i] in b
  }

  lemma IncludedTable(a: seq<Mapping>, b: seq<Mapping>)
    requires Validated(a) && Validated(b) && Included(a, b)
    ensures forall p | p in TableOf(a) :: p in TableOf(b) && TableOf(a)[p] == TableOf(b)[p]
  {
    forall p | p in TableOf(a)
      ensures p in TableOf(b) && TableOf(a)[p] == TableOf(b)[p]
    {
      TableHolds(a, p);
      TableHolds(b, p);
      var i :| 0 <= i < |a| && a[i].path == p;
      assert a[i] in b;
    }
  }

  lemma IncludedCovers(a: seq<Mapping>, b: seq<Mapping>, p: Path)
    requires Included(a, b) && CoveredBy(a, p)
    ensures CoveredBy(b, p)
  {
    var i :| 0 <= i < |a| && a[i].path <= p;
    var j :| 0 <= j < |b| && b[j] == a[i];
    assert b[j].path <= p;
  }

  lemma IncludedFits(t: Tree, a: seq<Mapping>, b: seq<Mapping>)
    requires Included(a, b) && Included(b, a) && Exact(t, a)
    ensures Exact(t, b)
  {
    forall i | 0 <= i < |b|
      ensures Covers(b[i], Walk(t))
    {
      assert b[i] in a;
      var j :| 0 <= j < |a| && a[j] == b[i];
      assert Covers(a[j], Walk(t));
    }
    forall p | p in Walk(t)
      ensures CoveredBy(b, p)
    {
      IncludedCovers(a, b, p);
    }
  }

  /** The order of the mappings does not matter. */
  lemma OrderDoesNotMatter(t: Tree, a: seq<Mapping>, b: seq<Mapping>)
    requires Validated(a) && Validated(b) && Included(a, b) && Included(b, a)
    ensures Exact(t, a) <==> Exact(t, b)
    ensures Substitute(t, [], TableOf(a)) == Substitute(t, [], TableOf(b))
  {
    IncludedTable(a, b);
    IncludedTable(b, a);
    assert TableOf(a) == TableOf(b);
    if Exact(t, a) { IncludedFits(t, a, b); }
    if Exact(t, b) { IncludedFits(t, b, a); }
  }

  /** From the operator's file to the rendered config: below each entry's path are exactly the
      entry's own Secret name and key, and the fields kept of a dict. */
  lemma LoadedLeaves(t: Tree, entries: seq<Entry>, mappings: seq<Mapping>, i: nat, path: Path, text: string)
    requires Validated(mappings) && |mappings| == |entries| && i < |entries|
    requires forall j | 0 <= j < |entries| :: IsMappingFor(mappings[j], entries[j])
    requires IsMappingFor(mappings[i], entries[i]) && At(t, Split(entries[i].path.value, '.')).Some?
    ensures
      var at := Split(entries[i].path.value, '.');
      IsLeafAt(Substitute(t, [], TableOf(mappings)), at + path, text) <==>
        || (path == ["secretName"] && text == entries[i].secretName.value)
        || (path == ["secretKey"] && text == entries[i].secretKey.value)
        || IsKeptField(At(t, at).value, path, text)
  {
    SplitAfterJoin(mappings[i].path, '.');
    MappedLeaves(t, mappings, i, path, text);
  }
}
