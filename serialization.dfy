/** Serialization of a contract analysis. The database stores the JSON document that
    serialization produces; the model keeps the document as a tree and leaves out its
    rendering as text. What matters to the database is that decoding undoes encoding. */
module Serialization {
  import opened Wrappers
  import opened Clarity

  datatype Json = JNull | JStr(str: string) | JArr(items: seq<Json>) | JObj(fields: map<string, Json>)

  // Generic encoders for sequences and string-keyed maps.

  function EncodeSeq<T>(xs: seq<T>, enc: T -> Json): (j: Json)
    ensures j.JArr? && |j.items| == |xs|
    ensures forall i :: 0 <= i < |xs| ==> j.items[i] == enc(xs[i])
  {
    JArr(seq(|xs|, i requires 0 <= i < |xs| => enc(xs[i])))
  }

  function DecodeSeq<T>(items: seq<Json>, dec: Json -> Option<T>): (r: Option<seq<T>>)
    ensures r.Some? ==> |r.value| == |items|
  {
    if |items| == 0 then Some([])
    else match dec(items[0])
      case None => None
      case Some(x) =>
        match DecodeSeq(items[1..], dec)
        case None => None
        case Some(rest) => Some([x] + rest)
  }

  lemma {:induction false} SeqRoundTrip<T>(xs: seq<T>, enc: T -> Json, dec: Json -> Option<T>)
    requires forall i :: 0 <= i < |xs| ==> dec(enc(xs[i])) == Some(xs[i])
    ensures DecodeSeq(EncodeSeq(xs, enc).items, dec) == Some(xs)
  {
    if |xs| > 0 {
      var items := EncodeSeq(xs, enc).items;
      assert items[1..] == EncodeSeq(xs[1..], enc).items;
      SeqRoundTrip(xs[1..], enc, dec);
      assert [xs[0]] + xs[1..] == xs;
    }
  }

  function EncodeMap<V>(m: map<string, V>, enc: V -> Json): (j: Json)
    ensures j.JObj? && j.fields.Keys == m.Keys
  {
    JObj(map k | k in m :: enc(m[k]))
  }

  function DecodeMap<V>(j: Json, dec: Json -> Option<V>): (r: Option<map<string, V>>)
    ensures r.Some? ==> j.JObj? && r.value.Keys == j.fields.Keys
  {
    if j.JObj? && forall k :: k in j.fields ==> dec(j.fields[k]).Some? then
      Some(map k | k in j.fields :: dec(j.fields[k]).value)
    else
      None
  }

  lemma MapRoundTrip<V>(m: map<string, V>, enc: V -> Json, dec: Json -> Option<V>)
    requires forall k :: k in m ==> dec(enc(m[k])) == Some(m[k])
    ensures DecodeMap(EncodeMap(m, enc), dec) == Some(m)
  {
    var j := EncodeMap(m, enc);
    assert forall k :: k in j.fields ==> j.fields[k] == enc(m[k]);
    assert DecodeMap(j, dec).value == m;
  }

  // Encoders for the Clarity types inside an analysis.

  function EncodeType(t: TypeSignature): Json { JStr(t) }

  function DecodeType(j: Json): Option<TypeSignature> {
    if j.JStr? then Some(j.str) else None
  }

  function EncodeArg(a: FunctionArg): Json {
    JArr([JStr(a.name), EncodeType(a.signature)])
  }

  function DecodeArg(j: Json): Option<FunctionArg> {
    if j.JArr? && |j.items| == 2 && j.items[0].JStr? && DecodeType(j.items[1]).Some? then
      Some(FunctionArg(j.items[0].str, DecodeType(j.items[1]).value))
    else
      None
  }

  function EncodeFunctionType(f: FunctionType): Json {
    JArr([EncodeSeq(f.args, EncodeArg), EncodeType(f.returnType)])
  }

  function DecodeFunctionType(j: Json): Option<FunctionType> {
    if j.JArr? && |j.items| == 2 && j.items[0].JArr? then
      match (DecodeSeq(j.items[0].items, DecodeArg), DecodeType(j.items[1]))
      case (Some(args), Some(ret)) => Some(FunctionType(args, ret))
      case _ => None
    else
      None
  }

  function EncodeSignature(s: FunctionSignature): Json {
    JArr([EncodeSeq(s.args, EncodeType), EncodeType(s.returnType)])
  }

  function DecodeSignature(j: Json): Option<FunctionSignature> {
    if j.JArr? && |j.items| == 2 && j.items[0].JArr? then
      match (DecodeSeq(j.items[0].items, DecodeType), DecodeType(j.items[1]))
      case (Some(args), Some(ret)) => Some(FunctionSignature(args, ret))
      case _ => None
    else
      None
  }

  function EncodeTrait(t: map<Name, FunctionSignature>): Json {
    EncodeMap(t, EncodeSignature)
  }

  function DecodeTrait(j: Json): Option<map<Name, FunctionSignature>> {
    DecodeMap(j, DecodeSignature)
  }

  function EncodeMapType(p: (TypeSignature, TypeSignature)): Json {
    JArr([EncodeType(p.0), EncodeType(p.1)])
  }

  function DecodeMapType(j: Json): Option<(TypeSignature, TypeSignature)> {
    if j.JArr? && |j.items| == 2 && j.items[0].JStr? && j.items[1].JStr? then
      Some((j.items[0].str, j.items[1].str))
    else
      None
  }

  function Issuers(s: set<TraitIdentifier>): set<string> {
    set t | t in s :: t.contract.issuer
  }

  function ContractNames(s: set<TraitIdentifier>, issuer: string): set<Name> {
    set t | t in s && t.contract.issuer == issuer :: t.contract.name
  }

  function TraitNames(s: set<TraitIdentifier>, c: ContractIdentifier): set<Name> {
    set t | t in s && t.contract == c :: t.name
  }

  function NullObject(keys: set<string>): Json {
    JObj(map m | m in keys :: JNull)
  }

  function EncodeContractTraits(s: set<TraitIdentifier>, issuer: string): Json {
    JObj(map n | n in ContractNames(s, issuer) :: NullObject(TraitNames(s, ContractIdentifier(issuer, n))))
  }

  /** A set of trait identifiers as nested objects: issuer, then contract name, then trait name. */
  function EncodeTraitSet(s: set<TraitIdentifier>): Json {
    JObj(map i | i in Issuers(s) :: EncodeContractTraits(s, i))
  }

  predicate TraitSetShape(j: Json) {
    j.JObj? &&
    forall i :: i in j.fields ==>
      j.fields[i].JObj? && forall n :: n in j.fields[i].fields ==> j.fields[i].fields[n].JObj?
  }

  function DecodeTraitSet(j: Json): Option<set<TraitIdentifier>> {
    if TraitSetShape(j) then
      Some(set i, n, m | i in j.fields && n in j.fields[i].fields && m in j.fields[i].fields[n].fields
             :: TraitIdentifier(ContractIdentifier(i, n), m))
    else
      None
  }

  // Field names of the serialized record.
  const PublicFunctionTypesField := "public_function_types"
  const ReadOnlyFunctionTypesField := "read_only_function_types"
  const DefinedTraitsField := "defined_traits"
  const ImplementedTraitsField := "implemented_traits"
  const MapTypesField := "map_types"

  /** A record with exactly the five fields; `RoundTrip` below states what it preserves. */
  function Serialize(a: ContractAnalysis): (r: Json)
    ensures r.JObj? && r.fields.Keys == {PublicFunctionTypesField, ReadOnlyFunctionTypesField, DefinedTraitsField,
                                         ImplementedTraitsField, MapTypesField}
  {
    JObj(map[
      PublicFunctionTypesField := EncodeMap(a.publicFunctionTypes, EncodeFunctionType),
      ReadOnlyFunctionTypesField := EncodeMap(a.readOnlyFunctionTypes, EncodeFunctionType),
      DefinedTraitsField := EncodeMap(a.definedTraits, EncodeTrait),
      ImplementedTraitsField := EncodeTraitSet(a.implementedTraits),
      MapTypesField := EncodeMap(a.mapTypes, EncodeMapType)])
  }

  /** Anything but a record holding the five fields, each decodable, is refused. */
  function Deserialize(j: Json): (r: Option<ContractAnalysis>)
    ensures r.Some? ==> j.JObj? && {PublicFunctionTypesField, ReadOnlyFunctionTypesField, DefinedTraitsField,
                                      ImplementedTraitsField, MapTypesField} <= j.fields.Keys
  {
    if j.JObj? && PublicFunctionTypesField in j.fields && ReadOnlyFunctionTypesField in j.fields
       && DefinedTraitsField in j.fields && ImplementedTraitsField in j.fields && MapTypesField in j.fields
    then
      match (DecodeMap(j.fields[PublicFunctionTypesField], DecodeFunctionType),
             DecodeMap(j.fields[ReadOnlyFunctionTypesField], DecodeFunctionType),
             DecodeMap(j.fields[DefinedTraitsField], DecodeTrait),
             DecodeTraitSet(j.fields[ImplementedTraitsField]),
             DecodeMap(j.fields[MapTypesField], DecodeMapType))
      case (Some(pub), Some(ro), Some(traits), Some(impls), Some(maps)) =>
        Some(ContractAnalysis(pub, ro, traits, impls, maps))
      case _ => None
    else
      None
  }

  // Round trips, from the leaves up.

  lemma FunctionTypeRoundTrip(f: FunctionType)
    ensures DecodeFunctionType(EncodeFunctionType(f)) == Some(f)
  {
    SeqRoundTrip(f.args, EncodeArg, DecodeArg);
  }

  lemma SignatureRoundTrip(s: FunctionSignature)
    ensures DecodeSignature(EncodeSignature(s)) == Some(s)
  {
    SeqRoundTrip(s.args, EncodeType, DecodeType);
  }

  lemma TraitRoundTrip(t: map<Name, FunctionSignature>)
    ensures DecodeTrait(EncodeTrait(t)) == Some(t)
  {
    forall k | k in t ensures DecodeSignature(EncodeSignature(t[k])) == Some(t[k]) {
      SignatureRoundTrip(t[k]);
    }
    MapRoundTrip(t, EncodeSignature, DecodeSignature);
  }

  lemma TraitSetRoundTrip(s: set<TraitIdentifier>)
    ensures DecodeTraitSet(EncodeTraitSet(s)) == Some(s)
  {
    var j := EncodeTraitSet(s);
    assert TraitSetShape(j);
    var d := DecodeTraitSet(j).value;
    forall x | x in s ensures x in d {
      var i, n := x.contract.issuer, x.contract.name;
      assert i in Issuers(s);
      assert n in ContractNames(s, i);
      assert x.name in TraitNames(s, ContractIdentifier(i, n));
      assert j.fields[i] == EncodeContractTraits(s, i);
      assert j.fields[i].fields[n] == NullObject(TraitNames(s, ContractIdentifier(i, n)));
      assert x == TraitIdentifier(ContractIdentifier(i, n), x.name);
    }
    forall x | x in d ensures x in s {
      var i, n, m :| i in j.fields && n in j.fields[i].fields && m in j.fields[i].fields[n].fields
                     && x == TraitIdentifier(ContractIdentifier(i, n), m);
      assert m in TraitNames(s, ContractIdentifier(i, n));
    }
    assert d == s;
  }

  lemma FunctionTypesRoundTrip(m: map<Name, FunctionType>)
    ensures DecodeMap(EncodeMap(m, EncodeFunctionType), DecodeFunctionType) == Some(m)
  {
    forall k | k in m ensures DecodeFunctionType(EncodeFunctionType(m[k])) == Some(m[k]) {
      FunctionTypeRoundTrip(m[k]);
    }
    MapRoundTrip(m, EncodeFunctionType, DecodeFunctionType);
  }

  lemma DefinedTraitsRoundTrip(m: map<Name, map<Name, FunctionSignature>>)
    ensures DecodeMap(EncodeMap(m, EncodeTrait), DecodeTrait) == Some(m)
  {
    forall k | k in m ensures DecodeTrait(EncodeTrait(m[k])) == Some(m[k]) {
      TraitRoundTrip(m[k]);
    }
    MapRoundTrip(m, EncodeTrait, DecodeTrait);
  }

  lemma MapTypesRoundTrip(m: map<Name, (TypeSignature, TypeSignature)>)
    ensures DecodeMap(EncodeMap(m, EncodeMapType), DecodeMapType) == Some(m)
  {
    MapRoundTrip(m, EncodeMapType, DecodeMapType);
  }

  /** Decoding a serialized analysis gives back the same analysis, facet for facet. */
  lemma RoundTrip(a: ContractAnalysis)
    ensures Deserialize(Serialize(a)) == Some(a)
  {
    var j := Serialize(a);
    assert j.fields[PublicFunctionTypesField] == EncodeMap(a.publicFunctionTypes, EncodeFunctionType);
    assert j.fields[ReadOnlyFunctionTypesField] == EncodeMap(a.readOnlyFunctionTypes, EncodeFunctionType);
    assert j.fields[DefinedTraitsField] == EncodeMap(a.definedTraits, EncodeTrait);
    assert j.fields[ImplementedTraitsField] == EncodeTraitSet(a.implementedTraits);
    assert j.fields[MapTypesField] == EncodeMap(a.mapTypes, EncodeMapType);
    FunctionTypesRoundTrip(a.publicFunctionTypes);
    FunctionTypesRoundTrip(a.readOnlyFunctionTypes);
    DefinedTraitsRoundTrip(a.definedTraits);
    TraitSetRoundTrip(a.implementedTraits);
    MapTypesRoundTrip(a.mapTypes);
  }
}
