/** The projection of fetched objects into the printed list (PrintObjects and
    PrintObject in cmd/cmd.go): each object becomes a single-key map from
    "<type> <<id>>" to its attributes, filtered when both include and exclude
    are set, with every relationship folded in under its own name. */
module Projection {
  import opened Wrappers
  import opened Objects

  /** The include/exclude settings: whether each was set, and its glob patterns. */
  datatype FieldFilter = FieldFilter(
    includeSet: bool,
    includes: seq<string>,
    excludeSet: bool,
    excludes: seq<string>)

  /** The glob-based attribute filter of the utils package, left uninterpreted:
      it receives the attributes, the include patterns and the exclude patterns. */
  type FilterMap = (Attributes, seq<string>, seq<string>) -> Attributes

  /** One entry of the printed list: a map whose only key is "<type> <<id>>". */
  type Entry = map<string, Value>

  /** What PrintObjects consults besides the objects: the field settings, the
      attribute filter and the encoder, which reports the error (if any) of
      encoding and flushing a list. */
  datatype Presenter = Presenter(
    fields: FieldFilter,
    filterMap: FilterMap,
    encode: seq<Entry> -> Option<string>)

  /** The list handed to the encoder and the encoder's verdict on it. */
  datatype Printed = Printed(doc: seq<Entry>, err: Option<string>)

  predicate FilterApplies(f: FieldFilter) {
    f.includeSet && f.excludeSet
  }

  /** The attribute map before relationships are folded in. */
  function VisibleAttributes(attrs: Attributes, p: Presenter): Attributes {
    if FilterApplies(p.fields) then p.filterMap(attrs, p.fields.includes, p.fields.excludes)
    else attrs
  }

  /** The identifiers of `objs`, collected by appending one at a time. */
  function RelatedIds(objs: seq<Object>): (ids: seq<string>)
    ensures |ids| == |objs|
    ensures forall i :: 0 <= i < |objs| ==> ids[i] == objs[i].id
  {
    if |objs| == 0 then []
    else RelatedIds(objs[..|objs| - 1]) + [objs[|objs| - 1].id]
  }

  /** The value a relationship takes in the printed map: the bare identifier of
      the first related object for a non-empty one-to-one relationship, the list
      of all related identifiers otherwise. */
  function FoldRelationship(r: Relationship): (v: Value)
    ensures r.isOneToOne && |r.related| > 0 ==> v == Str(r.related[0].id)
    ensures !(r.isOneToOne && |r.related| > 0) ==>
      && v.Strings?
      && |v.items| == |r.related|
      && forall i :: 0 <= i < |r.related| ==> v.items[i] == r.related[i].id
  {
    if r.isOneToOne && |r.related| > 0 then Str(r.related[0].id)
    else Strings(RelatedIds(r.related))
  }

  /** The relationship loop of PrintObjects, visiting the names in the order given
      (Go leaves the iteration order of a map unspecified). */
  function FoldInOrder(m: Attributes, rels: map<string, Relationship>, names: seq<string>): (r: Attributes)
    requires forall i :: 0 <= i < |names| ==> names[i] in rels
    ensures forall k :: k in r <==> k in m || k in names
    decreases |names|
  {
    if |names| == 0 then m
    else
      assert forall k :: k in names <==> k == names[0] || k in names[1..];
      FoldInOrder(m[names[0] := FoldRelationship(rels[names[0]])], rels, names[1..])
  }

  /** The same fold with the order of visits abstracted away. */
  function FoldRelationships(m: Attributes, rels: map<string, Relationship>): Attributes {
    map k | k in m.Keys + rels.Keys :: if k in rels then FoldRelationship(rels[k]) else m[k]
  }

  /** `names` lists every element of `keys` and nothing else. */
  ghost predicate Enumerates(names: seq<string>, keys: set<string>) {
    && (forall i :: 0 <= i < |names| ==> names[i] in keys)
    && (forall k :: k in keys ==> k in names)
  }

  /** Folding in any order sets each visited name to its folded relationship and
      leaves every other key as it was. */
  lemma {:induction false} FoldInOrderEffect(m: Attributes, rels: map<string, Relationship>, names: seq<string>)
    requires forall i :: 0 <= i < |names| ==> names[i] in rels
    ensures var r := FoldInOrder(m, rels, names);
      && (forall k :: k in r <==> k in m || k in names)
      && (forall k :: k in names ==> r[k] == FoldRelationship(rels[k]))
      && (forall k :: k in m && k !in names ==> r[k] == m[k])
    decreases |names|
  {
    if |names| > 0 {
      var m' := m[names[0] := FoldRelationship(rels[names[0]])];
      FoldInOrderEffect(m', rels, names[1..]);
      assert names == [names[0]] + names[1..];
      assert forall k :: k in names <==> k == names[0] || k in names[1..];
    }
  }

  /** Whatever order Go's map iteration picks, the loop computes FoldRelationships. */
  lemma FoldInAnyOrder(m: Attributes, rels: map<string, Relationship>, names: seq<string>)
    requires Enumerates(names, rels.Keys)
    ensures FoldInOrder(m, rels, names) == FoldRelationships(m, rels)
  {
    FoldInOrderEffect(m, rels, names);
  }

  /** Two visiting orders of the same relationships give the same printed map. */
  lemma FoldOrderIrrelevant(m: Attributes, rels: map<string, Relationship>, a: seq<string>, b: seq<string>)
    requires Enumerates(a, rels.Keys)
    requires Enumerates(b, rels.Keys)
    ensures FoldInOrder(m, rels, a) == FoldInOrder(m, rels, b)
  {
    FoldInAnyOrder(m, rels, a);
    FoldInAnyOrder(m, rels, b);
  }

  /** Without the filter PrintObjects folds into the object's own attribute map;
      folding an already folded map again changes nothing. */
  lemma FoldTwice(m: Attributes, rels: map<string, Relationship>, a: seq<string>, b: seq<string>)
    requires Enumerates(a, rels.Keys)
    requires Enumerates(b, rels.Keys)
    ensures FoldInOrder(FoldInOrder(m, rels, a), rels, b) == FoldInOrder(m, rels, a)
  {
    FoldInOrderEffect(m, rels, a);
    FoldInOrderEffect(FoldInOrder(m, rels, a), rels, b);
  }

  /** The printed attribute map of one object. */
  function ProjectAttributes(o: Object, p: Presenter): (m: Attributes)
    ensures forall name :: name in o.relationships ==>
      name in m && m[name] == FoldRelationship(o.relationships[name])
    ensures !FilterApplies(p.fields) ==>
      forall k :: k !in o.relationships ==>
        (k in m <==> k in o.attributes) && (k in m ==> m[k] == o.attributes[k])
    ensures FilterApplies(p.fields) ==>
      var kept := p.filterMap(o.attributes, p.fields.includes, p.fields.excludes);
      forall k :: k !in o.relationships ==>
        (k in m <==> k in kept) && (k in m ==> m[k] == kept[k])
  {
    FoldRelationships(VisibleAttributes(o.attributes, p), o.relationships)
  }

  /** The key of an object's entry: "<type> <<id>>". */
  function EntryKey(kind: string, id: string): (key: string)
    ensures |key| == |kind| + |id| + 3
    ensures key[..|kind|] == kind
    ensures key[|kind|] == ' ' && key[|kind| + 1] == '<'
    ensures key[|kind| + 2..|key| - 1] == id
    ensures key[|key| - 1] == '>'
  {
    kind + " <" + id + ">"
  }

  /** `e` is the printed entry of `o`: its only key is the object's entry key and
      that key maps to the projected attributes. */
  ghost predicate IsEntryFor(e: Entry, o: Object, p: Presenter) {
    && e.Keys == {EntryKey(o.kind, o.id)}
    && e[EntryKey(o.kind, o.id)] == Dict(ProjectAttributes(o, p))
  }

  /** The list PrintObjects encodes, one entry per object in input order, and the
      encoder's verdict on it. */
  function PrintObjects(objs: seq<Object>, p: Presenter): (out: Printed)
    ensures |out.doc| == |objs|
    ensures forall i :: 0 <= i < |objs| ==> IsEntryFor(out.doc[i], objs[i], p)
    ensures out.err == p.encode(out.doc)
  {
    var doc := seq(|objs|, i requires 0 <= i < |objs| =>
      map[EntryKey(objs[i].kind, objs[i].id) := Dict(ProjectAttributes(objs[i], p))]);
    Printed(doc, p.encode(doc))
  }

  /** PrintObject prints a list holding just the one object. */
  function PrintObject(o: Object, p: Presenter): (out: Printed)
    ensures |out.doc| == 1
    ensures IsEntryFor(out.doc[0], o, p)
    ensures out.err == p.encode(out.doc)
  {
    PrintObjects([o], p)
  }

  /** The first position at or after `from` where " <" starts, or |key|. */
  function FindSeparator(key: string, from: nat): (i: nat)
    requires from <= |key|
    ensures from <= i <= |key|
    decreases |key| - from
  {
    if from + 1 >= |key| then |key|
    else if key[from] == ' ' && key[from + 1] == '<' then from
    else FindSeparator(key, from + 1)
  }

  /** Reads an entry key back into its type and identifier. */
  function ParseKey(key: string): Option<(string, string)> {
    if |key| == 0 || key[|key| - 1] != '>' then None
    else
      var i := FindSeparator(key, 0);
      if i + 2 <= |key| - 1 then Some((key[..i], key[i + 2..|key| - 1])) else None
  }

  lemma {:induction false} SeparatorFollowsKind(kind: string, id: string, from: nat)
    requires '<' !in kind
    requires from <= |kind|
    ensures FindSeparator(EntryKey(kind, id), from) == |kind|
    decreases |kind| - from
  {
    var key := EntryKey(kind, id);
    if from < |kind| {
      assert key[from + 1] != '<' by {
        if from + 1 < |kind| { assert key[from + 1] == kind[from + 1]; }
        else { assert key[from + 1] == ' '; }
      }
      SeparatorFollowsKind(kind, id, from + 1);
    } else {
      assert key[from] == ' ' && key[from + 1] == '<';
    }
  }

  /** An entry key is read back into the type and identifier it was built from,
      provided the type has no '<' (types are plain words such as "file"). */
  lemma EntryKeyRoundTrip(kind: string, id: string)
    requires '<' !in kind
    ensures ParseKey(EntryKey(kind, id)) == Some((kind, id))
  {
    var key := EntryKey(kind, id);
    SeparatorFollowsKind(kind, id, 0);
    assert key[..|kind|] == kind;
    assert key[|kind| + 2..|key| - 1] == id;
  }
}
