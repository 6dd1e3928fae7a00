/**
 Decoded contract storage and the oven (vault) classifier: `isOven` and
 `getOwnerAddress` in payouts-substitutor/main.go, plus the map coercion at
 the end of `getStorageMap`.
 */
module Storage {
  import opened Wrappers

  /** A value as Micheline decoding renders it into Go's dynamic types:
      `Str` is anything whose JSON form is a string (strings, addresses,
      timestamps, hex bytes), `Int` a number, `Null` an absent option. */
  datatype Value =
    | Str(s: string)
    | Int(i: int)
    | Bool(b: bool)
    | Null
    | List(items: seq<Value>)
    | Record(fields: map<string, Value>)

  type StorageMap = map<string, Value>

  /** Field whose presence marks a contract as an oven. */
  const OvenMarker: string := "ovenProxyContractAddress"

  /** Field naming the account that controls an oven. */
  const OwnerField: string := "owner"

  /** The decoded storage is cast to a string-keyed map and the failed cast
      is ignored, so storage that is not record-shaped reads as the empty
      (nil) map rather than as an error. */
  function AsStorageMap(v: Value): (m: StorageMap)
    ensures v.Record? ==> m == v.fields
    ensures !v.Record? ==> |m| == 0
  {
    match v
    case Record(fields) => fields
    case _ => map[]
  }

  predicate IsOven(m: StorageMap) {
    OvenMarker in m
  }

  /** The owner field did not decode as a string. */
  datatype DecodeError = NotAString(found: Value)

  /** Marshal a value to JSON and unmarshal the JSON into a Go string: a
      string comes back as itself, JSON `null` leaves the target string
      empty without error, and any other JSON value is a type error. */
  function JsonToString(v: Value): (r: Result<string, DecodeError>)
    ensures r.Success? <==> v.Str? || v.Null?
    ensures v.Str? ==> r == Success(v.s)
    ensures v.Null? ==> r == Success("")
  {
    match v
    case Str(s) => Success(s)
    case Null => Success("")
    case _ => Failure(NotAString(v))
  }

  /** The owner of an oven: none when the field is absent, the decoded
      string when it is present and decodes, an error otherwise. */
  function GetOwnerAddress(m: StorageMap): (r: Result<Option<string>, DecodeError>)
    ensures r == Success(None) <==> OwnerField !in m
    ensures r.Failure? <==> OwnerField in m && !(m[OwnerField].Str? || m[OwnerField].Null?)
    ensures OwnerField in m && m[OwnerField].Str? ==> r == Success(Some(m[OwnerField].s))
    ensures OwnerField in m && m[OwnerField].Null? ==> r == Success(Some(""))
  {
    if OwnerField in m then
      match JsonToString(m[OwnerField])
      case Success(s) => Success(Some(s))
      case Failure(e) => Failure(e)
    else
      Success(None)
  }

  /** Storing a string owner and reading it back returns that string, and
      the oven marker is unaffected by the owner field. */
  lemma OwnerRoundTrip(m: StorageMap, owner: string)
    ensures GetOwnerAddress(m[OwnerField := Str(owner)]) == Success(Some(owner))
    ensures IsOven(m[OwnerField := Str(owner)]) == IsOven(m)
  {
  }

  /** Only the two named fields matter: two storages that agree on them
      classify alike, whatever else they hold. */
  lemma OnlyMarkerFieldsMatter(m1: StorageMap, m2: StorageMap)
    requires (OvenMarker in m1) == (OvenMarker in m2)
    requires (OwnerField in m1) == (OwnerField in m2)
    requires OwnerField in m1 ==> m1[OwnerField] == m2[OwnerField]
    ensures IsOven(m1) == IsOven(m2)
    ensures GetOwnerAddress(m1) == GetOwnerAddress(m2)
  {
  }
}
