/**
  The JSON schema of a Go type, as a whole and with hidden fields left out, and what
  cleaning does to the pieces such schemas are made of.
 */
module TypeSchemas {
  import opened Wrappers
  import opened Schema
  import opened StructTypes

  /** The schema as generated (`Raw`), or without extension keys and, if `erase`, without
      hidden fields -- below map values only if `throughMaps`. */
  datatype View = Raw | Tidied(erase: bool, throughMaps: bool)

  const OPEN := Tidied(false, false)
  const REACHED := Tidied(true, false)
  const FULL := Tidied(true, true)

  function UnderMap(v: View): View {
    match v
    case Raw => Raw
    case Tidied(erase, throughMaps) => Tidied(erase && throughMaps, throughMaps)
  }

  /** The identifier under pointers, slices and maps. */
  function Base(t: GoType): string {
    match t
    case Ident(name) => name
    case Star(elt) => Base(elt)
    case Slice(elt) => Base(elt)
    case MapOf(value) => Base(value)
    case Foreign(_) => ""
  }

  predicate Fits(t: GoType, types: TypeMap, rank: Rank, bound: nat) {
    Base(t) in types ==> Base(t) in rank && rank[Base(t)] < bound
  }

  predicate AllFit(fields: seq<Field>, types: TypeMap, rank: Rank, bound: nat) {
    forall i :: 0 <= i < |fields| ==> Fits(fields[i].typ, types, rank, bound)
  }

  /** Struct types do not contain themselves, not even below maps, so their schema is finite. */
  predicate Grounded(types: TypeMap, rank: Rank) {
    forall name :: name in types ==> name in rank && AllFit(types[name], types, rank, rank[name])
  }

  predicate IsStruct(name: string, types: TypeMap) { name != "" && name in types }

  predicate Shown(f: Field, v: View) { Named(f) && !(v.Tidied? && v.erase && f.hidden) }

  function Notes(notes: map<string, Json>, v: View): map<string, Json> {
    if v.Raw? then notes else map k | k in notes && !(EXTENSION <= k) :: notes[k]
  }

  function Required(fields: seq<Field>, v: View): seq<Json> {
    if fields == [] then []
    else
      var f := fields[|fields| - 1];
      Required(fields[..|fields| - 1], v) + if Shown(f, v) && !f.optional then [Text(f.jsonName)] else []
  }

  function LeafSchema(name: string): map<string, Json> { map["type" := Text(name)] }

  function ObjectSchema(props: map<string, Json>, required: seq<Json>): map<string, Json> {
    var base := LeafSchema("object")["properties" := Obj(props)];
    if required == [] then base else base["required" := List(required)]
  }

  function ArraySchema(element: Json): map<string, Json> { LeafSchema("array")["items" := element] }

  function MapSchema(value: Json): map<string, Json> { LeafSchema("object")["additionalProperties" := value] }

  function TypeSchema(t: GoType, types: TypeMap, rank: Rank, bound: nat, v: View): map<string, Json>
    requires Grounded(types, rank) && Fits(t, types, rank, bound)
    decreases bound, 0, t
  {
    match t
    case Ident(name) => if IsStruct(name, types) then StructSchema(name, types, rank, v) else LeafSchema(name)
    case Star(elt) => TypeSchema(elt, types, rank, bound, v)
    case Slice(elt) => ArraySchema(Obj(TypeSchema(elt, types, rank, bound, v)))
    case MapOf(value) => MapSchema(Obj(TypeSchema(value, types, rank, bound, UnderMap(v))))
    case Foreign(name) => LeafSchema(name)
  }

  function FieldSchema(f: Field, types: TypeMap, rank: Rank, bound: nat, v: View): Json
    requires Grounded(types, rank) && Fits(f.typ, types, rank, bound)
    decreases bound, 1
  {
    Obj(TypeSchema(f.typ, types, rank, bound, v) + Notes(f.notes, v))
  }

  function Props(fields: seq<Field>, types: TypeMap, rank: Rank, bound: nat, v: View): map<string, Json>
    requires Grounded(types, rank) && AllFit(fields, types, rank, bound)
    decreases bound, 2, |fields|
  {
    if fields == [] then map[]
    else
      var f := fields[|fields| - 1];
      assert Fits(f.typ, types, rank, bound);
      var init := Props(fields[..|fields| - 1], types, rank, bound, v);
      if Shown(f, v) then init[f.jsonName := FieldSchema(f, types, rank, bound, v)] else init
  }

  function StructSchema(name: string, types: TypeMap, rank: Rank, v: View): map<string, Json>
    requires Grounded(types, rank) && name in types
    decreases rank[name], 3
  {
    ObjectSchema(Props(types[name], types, rank, rank[name], v), Required(types[name], v))
  }

  lemma {:induction false} ResolveIsBase(t: GoType)
    ensures Resolve(t) != "" ==> Base(t) == Resolve(t)
  {
    match t
    case Star(elt) => ResolveIsBase(elt);
    case Slice(elt) => ResolveIsBase(elt);
    case _ =>
  }

  lemma GroundedIsAcyclic(types: TypeMap, rank: Rank)
    requires Grounded(types, rank)
    ensures Acyclic(types, rank)
  {
    forall name | name in types
      ensures EntersBelow(types[name], types, rank, rank[name])
    {
      forall i | 0 <= i < |types[name]|
        ensures var e := Entered(types[name][i].typ, types); e.Some? ==> e.value in rank && rank[e.value] < rank[name]
      {
        ResolveIsBase(types[name][i].typ);
        assert Fits(types[name][i].typ, types, rank, rank[name]);
      }
    }
  }

  // Cleaning, piece by piece.

  const STRUCTURAL: set<string> := {"type", "properties", "required", "items", "additionalProperties"}

  predicate PlainNotes(notes: map<string, Json>) { notes.Keys !! STRUCTURAL }

  lemma CleanWithNotes(m: map<string, Json>, notes: map<string, Json>, hidden: Hidden, path: string)
    requires PlainNotes(notes)
    ensures Clean(Obj(m + notes), hidden, path) == Obj(Clean(Obj(m), hidden, path).fields + Notes(notes, OPEN))
  {
    forall k | k in notes
      ensures Keeps(k, notes[k], hidden, path) <==> !(EXTENSION <= k)
      ensures CleanField(k, notes[k], hidden, path) == notes[k]
    {
      assert k !in STRUCTURAL;
    }
  }

  predicate NoExtension(k: string) { k != "" && k[0] != 'x' }

  lemma TypeKey(v: Json, hidden: Hidden, path: string)
    ensures Keeps("type", v, hidden, path) && CleanField("type", v, hidden, path) == v
  {
    assert NoExtension("type");
  }

  lemma NestedKey(k: string, v: Json, hidden: Hidden, path: string)
    requires NoExtension(k) && (k == "items" || k == "additionalProperties")
    ensures Keeps(k, v, hidden, path) && CleanField(k, v, hidden, path) == Clean(v, hidden, path)
  {
  }

  lemma PropertiesKey(k: string, v: Json, hidden: Hidden, path: string)
    requires NoExtension(k) && k == "properties" && v.Obj?
    ensures Keeps(k, v, hidden, path) && CleanField(k, v, hidden, path) == CleanProperties(v, hidden, path)
  {
  }

  lemma RequiredKey(k: string, v: Json, hidden: Hidden, path: string)
    requires NoExtension(k) && k == "required" && v.List? && v.elements != []
    ensures Keeps(k, v, hidden, path) <==> FilterRequired(v.elements, hidden, path) != []
    ensures CleanField(k, v, hidden, path) == List(FilterRequired(v.elements, hidden, path))
  {
    NothingFiltered(v.elements, path);
  }

  /** Cleaning goes key by key. */
  lemma CleanUpdate(m: map<string, Json>, k: string, v: Json, hidden: Hidden, path: string)
    requires k !in m
    ensures Clean(Obj(m[k := v]), hidden, path)
         == Obj(if Keeps(k, v, hidden, path)
                then Clean(Obj(m), hidden, path).fields[k := CleanField(k, v, hidden, path)]
                else Clean(Obj(m), hidden, path).fields)
  {
  }

  lemma CleanLeaf(name: string, hidden: Hidden, path: string)
    ensures Clean(Obj(LeafSchema(name)), hidden, path) == Obj(LeafSchema(name))
  {
    TypeKey(Text(name), hidden, path);
  }

  lemma CleanArray(element: Json, hidden: Hidden, path: string)
    ensures Clean(Obj(ArraySchema(element)), hidden, path) == Obj(ArraySchema(Clean(element, hidden, path)))
  {
    CleanLeaf("array", hidden, path);
    NestedKey("items", element, hidden, path);
    CleanUpdate(LeafSchema("array"), "items", element, hidden, path);
  }

  lemma CleanMap(value: Json, hidden: Hidden, path: string)
    ensures Clean(Obj(MapSchema(value)), hidden, path) == Obj(MapSchema(Clean(value, hidden, path)))
  {
    CleanLeaf("object", hidden, path);
    NestedKey("additionalProperties", value, hidden, path);
    CleanUpdate(LeafSchema("object"), "additionalProperties", value, hidden, path);
  }

  lemma CleanObject(props: map<string, Json>, required: seq<Json>, hidden: Hidden, path: string)
    ensures Clean(Obj(ObjectSchema(props, required)), hidden, path)
         == Obj(ObjectSchema(CleanProperties(Obj(props), hidden, path).fields, FilterRequired(required, hidden, path)))
  {
    CleanLeaf("object", hidden, path);
    PropertiesKey("properties", Obj(props), hidden, path);
    CleanUpdate(LeafSchema("object"), "properties", Obj(props), hidden, path);
    if required != [] {
      RequiredKey("required", List(required), hidden, path);
      CleanUpdate(ObjectSchema(props, []), "required", List(required), hidden, path);
    }
  }
}
