/** The Clarity entities the analysis database stores and hands out. Type signatures are
    kept abstract (their printed form): the database never looks inside them. */
module Clarity {
  import opened Wrappers

  type Name = string

  /** A Clarity type signature, e.g. `uint` or `(buff 32)`, by its printed form. */
  type TypeSignature = string

  /** Issuing principal plus contract name. */
  datatype ContractIdentifier = ContractIdentifier(issuer: string, name: Name)

  /** A trait is named by the contract that defines it and its name inside that contract. */
  datatype TraitIdentifier = TraitIdentifier(contract: ContractIdentifier, name: Name)

  datatype FunctionArg = FunctionArg(name: Name, signature: TypeSignature)

  /** The type of a public or read-only function: named arguments and a return type. */
  datatype FunctionType = FunctionType(args: seq<FunctionArg>, returnType: TypeSignature)

  /** A function a trait requires: argument types and a return type. */
  datatype FunctionSignature = FunctionSignature(args: seq<TypeSignature>, returnType: TypeSignature)

  /** The facets of a contract's static analysis that the database serves. */
  datatype ContractAnalysis = ContractAnalysis(
    publicFunctionTypes: map<Name, FunctionType>,
    readOnlyFunctionTypes: map<Name, FunctionType>,
    definedTraits: map<Name, map<Name, FunctionSignature>>,
    implementedTraits: set<TraitIdentifier>,
    mapTypes: map<Name, (TypeSignature, TypeSignature)>)
  {
    function GetPublicFunctionType(name: Name): (r: Option<FunctionType>)
      ensures r.Some? <==> name in publicFunctionTypes
      ensures r.Some? ==> r.value == publicFunctionTypes[name]
    {
      Lookup(publicFunctionTypes, name)
    }

    function GetReadOnlyFunctionType(name: Name): (r: Option<FunctionType>)
      ensures r.Some? <==> name in readOnlyFunctionTypes
      ensures r.Some? ==> r.value == readOnlyFunctionTypes[name]
    {
      Lookup(readOnlyFunctionTypes, name)
    }

    function GetDefinedTrait(name: Name): (r: Option<map<Name, FunctionSignature>>)
      ensures r.Some? <==> name in definedTraits
      ensures r.Some? ==> r.value == definedTraits[name]
    {
      Lookup(definedTraits, name)
    }

    function GetMapType(name: Name): (r: Option<(TypeSignature, TypeSignature)>)
      ensures r.Some? <==> name in mapTypes
      ensures r.Some? ==> r.value == mapTypes[name]
    {
      Lookup(mapTypes, name)
    }
  }

  /** The errors of the analysis database (a subset of Clarity's `CheckErrors`). `Failed`
      stands for any other error a unit of work may raise. */
  datatype CheckError =
    | ContractAlreadyExists(contract: ContractIdentifier)
    | NoSuchContract(contract: ContractIdentifier)
    | NoSuchMap(mapName: Name)
    | Failed(reason: string)

  function Lookup<V>(m: map<Name, V>, k: Name): (r: Option<V>)
    ensures r.Some? <==> k in m
    ensures r.Some? ==> r.value == m[k]
  {
    if k in m then Some(m[k]) else None
  }
}
