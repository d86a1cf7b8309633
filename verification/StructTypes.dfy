/**
  Hidden paths of Go struct types (hack/crd-to-openapi/main.go): walkStructFields collects
  the dotted JSON path of every field tagged hidden, going through pointers and slices into
  the struct types of the package. Types are taken as already parsed.
 */
module StructTypes {
  import opened Wrappers
  import opened Schema

  /** A type expression. `Foreign` is any expression that is neither an identifier, a
      pointer, a slice nor a map. */
  datatype GoType =
    | Ident(name: string)
    | Star(elt: GoType)
    | Slice(elt: GoType)
    | MapOf(value: GoType)
    | Foreign(name: string)

  /** A struct field. An untagged field, and one without a `json` name, has jsonName "".
      `notes` are the further keys of its schema: description, format, extensions. */
  datatype Field = Field(jsonName: string, hidden: bool, optional: bool, typ: GoType, notes: map<string, Json>)

  type TypeMap = map<string, seq<Field>>

  /** resolveTypeName: the identifier under pointers and slices, "" for anything else. */
  function Resolve(t: GoType): string {
    match t
    case Ident(name) => name
    case Star(elt) => Resolve(elt)
    case Slice(elt) => Resolve(elt)
    case _ => ""
  }

  /** The struct type the walk enters from a type expression. */
  function Entered(t: GoType, types: TypeMap): Option<string> {
    if Resolve(t) != "" && Resolve(t) in types then Some(Resolve(t)) else None
  }

  type Rank = map<string, nat>

  predicate EntersBelow(fields: seq<Field>, types: TypeMap, rank: Rank, bound: nat) {
    forall i :: 0 <= i < |fields| ==>
      var entered := Entered(fields[i].typ, types);
      entered.Some? ==> entered.value in rank && rank[entered.value] < bound
  }

  /** Struct types do not contain themselves through pointers and slices. */
  predicate Acyclic(types: TypeMap, rank: Rank) {
    forall name :: name in types ==> name in rank && EntersBelow(types[name], types, rank, rank[name])
  }

  predicate Named(f: Field) { f.jsonName != "" && f.jsonName != "-" }

  function Extend(prefix: string, name: string): string { prefix + "." + name }

  /** The hidden paths below a struct type at `prefix`. */
  function Walk(fields: seq<Field>, prefix: string, types: TypeMap, rank: Rank, bound: nat): set<string>
    requires Acyclic(types, rank) && EntersBelow(fields, types, rank, bound)
    decreases bound, |fields|
  {
    if fields == [] then {}
    else
      var f := fields[|fields| - 1];
      var path := Extend(prefix, f.jsonName);
      var entered := Entered(f.typ, types);
      assert entered.Some? ==> rank[entered.value] < bound;
      Walk(fields[..|fields| - 1], prefix, types, rank, bound)
      + if !Named(f) then {} else if f.hidden then {path}
        else if entered.None? then {}
        else Walk(types[entered.value], path, types, rank, rank[entered.value])
  }

  // The walk spelled out: field by field, and type expression by type expression.

  lemma {:induction false} WalkAppend(a: seq<Field>, b: seq<Field>, prefix: string, types: TypeMap, rank: Rank,
                                      bound: nat)
    requires Acyclic(types, rank) && EntersBelow(a, types, rank, bound) && EntersBelow(b, types, rank, bound)
    ensures EntersBelow(a + b, types, rank, bound)
    ensures Walk(a + b, prefix, types, rank, bound)
         == Walk(a, prefix, types, rank, bound) + Walk(b, prefix, types, rank, bound)
  {
    if b == [] {
      assert a + b == a;
    } else {
      var k := |b| - 1;
      WalkAppend(a, b[..k], prefix, types, rank, bound);
      assert (a + b)[..|a + b| - 1] == a + b[..k];
    }
  }

  /** One field: nothing without a JSON name, its own path if hidden, and else what its type has
      below that path -- found through pointers and slices, but not through maps. */
  lemma WalkOneField(f: Field, prefix: string, types: TypeMap, rank: Rank, bound: nat)
    requires Acyclic(types, rank) && EntersBelow([f], types, rank, bound)
    ensures var found, here := Walk([f], prefix, types, rank, bound), prefix + "." + f.jsonName;
            if f.jsonName == "" || f.jsonName == "-" then found == {}
            else if f.hidden then found == {here}
            else if f.typ.Ident? && f.typ.name != "" && f.typ.name in types then
              && f.typ.name in rank && rank[f.typ.name] < bound
              && found == Walk(types[f.typ.name], here, types, rank, rank[f.typ.name])
            else if f.typ.Star? || f.typ.Slice? then
              && EntersBelow([f.(typ := f.typ.elt)], types, rank, bound)
              && found == Walk([f.(typ := f.typ.elt)], prefix, types, rank, bound)
            else found == {}
  {
    assert [f][..0] == [] && [f][0] == f;
    if f.typ.Star? || f.typ.Slice? {
      assert [f.(typ := f.typ.elt)][..0] == [];
      assert Entered(f.typ.elt, types) == Entered(f.typ, types);
    }
  }

  /** The set the walk fills in place. */
  class HiddenPaths {
    var paths: set<string>

    constructor ()
      ensures paths == {}
    {
      paths := {};
    }
  }

  method WalkStructFields(fields: seq<Field>, prefix: string, types: TypeMap, hidden: HiddenPaths, ghost rank: Rank,
                          ghost bound: nat)
    requires Acyclic(types, rank) && EntersBelow(fields, types, rank, bound)
    modifies hidden
    ensures hidden.paths == old(hidden.paths) + Walk(fields, prefix, types, rank, bound)
    decreases bound
  {
    for i := 0 to |fields|
      invariant hidden.paths == old(hidden.paths) + Walk(fields[..i], prefix, types, rank, bound)
    {
      assert fields[..i + 1][..i] == fields[..i];
      var f := fields[i];
      if !Named(f) {
        continue;
      }
      var fieldPath := Extend(prefix, f.jsonName);
      if f.hidden {
        hidden.paths := hidden.paths + {fieldPath};
        continue;
      }
      var typeName := Resolve(f.typ);
      if typeName != "" && typeName in types {
        WalkStructFields(types[typeName], fieldPath, types, hidden, rank, rank[typeName]);
      }
    }
    assert fields[..|fields|] == fields;
  }

  /** The hidden paths of a kind: those of its spec and of its status type. */
  function KindPaths(kind: string, types: TypeMap, rank: Rank): set<string>
    requires Acyclic(types, rank)
  {
    (if kind + "Spec" in types then Walk(types[kind + "Spec"], "spec", types, rank, rank[kind + "Spec"]) else {})
    + if kind + "Status" in types
      then Walk(types[kind + "Status"], "status", types, rank, rank[kind + "Status"])
      else {}
  }

  /** Kinds with nothing hidden are left out of the result. */
  method BuildHiddenPaths(types: TypeMap, kinds: seq<string>, ghost rank: Rank)
    returns (result: map<string, set<string>>)
    requires Acyclic(types, rank)
    ensures forall kind :: kind in result <==> kind in kinds && KindPaths(kind, types, rank) != {}
    ensures forall kind :: kind in result ==> result[kind] == KindPaths(kind, types, rank)
  {
    result := map[];
    for i := 0 to |kinds|
      invariant forall kind :: kind in result <==> kind in kinds[..i] && KindPaths(kind, types, rank) != {}
      invariant forall kind :: kind in result ==> result[kind] == KindPaths(kind, types, rank)
    {
      var kind := kinds[i];
      var hidden := new HiddenPaths();
      if kind + "Spec" in types {
        WalkStructFields(types[kind + "Spec"], "spec", types, hidden, rank, rank[kind + "Spec"]);
      }
      if kind + "Status" in types {
        WalkStructFields(types[kind + "Status"], "status", types, hidden, rank, rank[kind + "Status"]);
      }
      assert hidden.paths == KindPaths(kind, types, rank);
      assert forall k :: k in kinds[..i + 1] <==> k in kinds[..i] || k == kind;
      if |hidden.paths| > 0 {
        result := result[kind := hidden.paths];
      }
    }
    assert kinds[..|kinds|] == kinds;
  }
}
