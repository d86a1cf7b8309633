/**
  Storage of the raw Kubernetes objects carried by a desire (internal/desires/codec.go).
  A desire holds up to two of them; each lives in its own top-level document field.
 */
module Codec {
  import opened Wrappers

  /** Bytes of a RawExtension: none at all, the JSON literal null, a JSON object, or something
      that does not parse as either. */
  datatype Raw<+J> = Empty | NullLiteral | Object(json: J) | Malformed

  /** A stored field is a JSON object or an explicit null. */
  datatype Value<+J> = Null | Map(json: J)

  /** The spec-side and status-side raw object of a desire. */
  datatype Contents<+J> = Contents(spec: Option<Raw<J>>, status: Option<Raw<J>>)

  const SPEC_FIELD := "spec_kubeContent"
  const STATUS_FIELD := "status_kubeContent"

  type Fields<J> = map<string, Value<J>>

  /** An entry of a partial update: set a field, or delete it. */
  datatype Update<+J> = Set(field: string, value: Value<J>) | Delete(field: string)

  function RawToValue<J>(raw: Raw<J>): Result<Value<J>, string> {
    match raw
    case Empty => Success(Null)
    case NullLiteral => Success(Null)
    case Object(j) => Success(Map(j))
    case Malformed => Failure("unmarshal RawExtension")
  }

  function ValueToRaw<J>(v: Value<J>): Option<Raw<J>> {
    match v
    case Null => None
    case Map(j) => Some(Object(j))
  }

  /** One field of a freshly created document: present only if the desire carries it. */
  function WriteField<J>(field: string, content: Option<Raw<J>>): Result<Fields<J>, string> {
    match content
    case None => Success(map[])
    case Some(raw) =>
      match RawToValue(raw)
      case Failure(e) => Failure(e)
      case Success(v) => Success(map[field := v])
  }

  /** The fields a Create writes. */
  function WriteMap<J>(c: Contents<J>): Result<Fields<J>, string> {
    match (WriteField(SPEC_FIELD, c.spec), WriteField(STATUS_FIELD, c.status))
    case (Success(a), Success(b)) => Success(a + b)
    case (Failure(e), _) => Failure(e)
    case (_, Failure(e)) => Failure(e)
  }

  function UpdateField<J>(field: string, content: Option<Raw<J>>): Result<Update<J>, string> {
    match content
    case None => Success(Delete(field))
    case Some(raw) =>
      match RawToValue(raw)
      case Failure(e) => Failure(e)
      case Success(v) => Success(Set(field, v))
  }

  /** The updates a Replace sends: both fields are always mentioned. */
  function WriteUpdates<J>(c: Contents<J>): Result<seq<Update<J>>, string> {
    match (UpdateField(SPEC_FIELD, c.spec), UpdateField(STATUS_FIELD, c.status))
    case (Success(a), Success(b)) => Success([a, b])
    case (Failure(e), _) => Failure(e)
    case (_, Failure(e)) => Failure(e)
  }

  function PatchOne<J>(doc: Fields<J>, u: Update<J>): Fields<J> {
    match u
    case Set(f, v) => doc[f := v]
    case Delete(f) => doc - {f}
  }

  /** What the store does with a list of updates, in order. */
  function Patch<J>(doc: Fields<J>, us: seq<Update<J>>): Fields<J>
    decreases |us|
  {
    if us == [] then doc else Patch(PatchOne(doc, us[0]), us[1..])
  }

  function Read<J>(doc: Fields<J>): Contents<J> {
    Contents(
      if SPEC_FIELD in doc then ValueToRaw(doc[SPEC_FIELD]) else None,
      if STATUS_FIELD in doc then ValueToRaw(doc[STATUS_FIELD]) else None)
  }

  /** An empty or null raw object comes back as an absent one; everything else is itself. */
  function Normalized<J>(content: Option<Raw<J>>): Option<Raw<J>> {
    if content == Some(Empty) || content == Some(NullLiteral) then None else content
  }

  /** Reading back what a Create wrote gives the desire's contents, up to empty and
      null raw objects; and a Create is refused exactly when a raw object does not parse. */
  lemma CreateReadRoundTrip<J>(c: Contents<J>)
    ensures WriteMap(c).Failure? <==> c.spec == Some(Malformed) || c.status == Some(Malformed)
    ensures WriteMap(c).Success? ==>
              && Read(WriteMap(c).value) == Contents(Normalized(c.spec), Normalized(c.status))
              && ("spec_kubeContent" in WriteMap(c).value <==> c.spec.Some?)
              && ("status_kubeContent" in WriteMap(c).value <==> c.status.Some?)
  {
    if WriteMap(c).Success? {
      var d := WriteMap(c).value;
      assert SPEC_FIELD[2] != STATUS_FIELD[2];
      assert SPEC_FIELD in d <==> c.spec.Some?;
      assert STATUS_FIELD in d <==> c.status.Some?;
    }
  }

  /** A Replace leaves the two fields of *any* earlier document exactly as a Create of the
      same desire would, so no stale raw object survives, and touches no other field. */
  lemma ReplaceForgetsTheOldContents<J>(old_: Fields<J>, c: Contents<J>)
    ensures WriteUpdates(c).Success? <==> WriteMap(c).Success?
    ensures WriteUpdates(c).Success? ==>
              var after := Patch(old_, WriteUpdates(c).value);
              && after == (old_ - {"spec_kubeContent", "status_kubeContent"}) + WriteMap(c).value
              && Read(after) == Read(WriteMap(c).value)
  {
    if WriteUpdates(c).Success? {
      var us := WriteUpdates(c).value;
      assert SPEC_FIELD[2] != STATUS_FIELD[2];
      var mid := PatchOne(old_, us[0]);
      assert us[1..][1..] == [];
      assert Patch(mid, us[1..]) == Patch(PatchOne(mid, us[1]), us[1..][1..]);
      assert PatchOne(mid, us[1]) == (old_ - {SPEC_FIELD, STATUS_FIELD}) + WriteMap(c).value;
    }
  }
}
