/** `AnalysisDatabase`: the contract-analysis metadata database. It keeps one serialized
    `ContractAnalysis` per contract under the metadata key "analysis", written at most once,
    and runs units of work inside frames that are committed on success and rolled back on
    error. The reads are functions of the store's abstract state; the writes and the frame
    operations are methods of the class at the end. */
module AnalysisDb {
  import opened Wrappers
  import opened Clarity
  import opened Serialization
  import opened Store

  /** The fixed metadata key of the analysis entry. */
  function StorageKey(): (k: string)
    ensures k == "analysis"
  {
    "analysis"
  }

  /** The placeholder contract hash that `test_insert_contract_hash` registers: 32 zero bytes. */
  const ZeroDigest: seq<bv8> := [0, 0, 0, 0, 0, 0, 0, 0, 0, 0, 0, 0, 0, 0, 0, 0,
                                 0, 0, 0, 0, 0, 0, 0, 0, 0, 0, 0, 0, 0, 0, 0, 0]

  // Every analysis entry in the store decodes. Deserializing an undecodable entry is a
  // panic in the Rust code, so the database keeps this as its invariant.

  predicate EntryDecodes(k: StoreKey, v: Value) {
    k.Metadata? && k.key == StorageKey() ==> v.Document? && Deserialize(v.doc).Some?
  }

  predicate FrameWellFormed(f: Frame) {
    forall k :: k in f ==> EntryDecodes(k, f[k])
  }

  predicate WellFormed(s: StoreState) {
    FrameWellFormed(s.base) && forall i :: 0 <= i < |s.frames| ==> FrameWellFormed(s.frames[i])
  }

  lemma WellFormedRead(s: StoreState, id: ContractIdentifier, v: Value)
    requires WellFormed(s) && GetMetadata(s, id, StorageKey()) == Ok(Some(v))
    ensures v.Document? && Deserialize(v.doc).Some?
  {
    var k := Metadata(id, StorageKey());
    if PendingLookup(s.frames, k).Some? {
      var i := PendingLookupInnermost(s.frames, k);
      assert EntryDecodes(k, s.frames[i][k]);
    } else {
      assert EntryDecodes(k, s.base[k]);
    }
  }

  /** `has_contract`: an analysis entry is visible, whatever its content. */
  function HasContract(s: StoreState, id: ContractIdentifier): (r: bool)
    ensures r <==> exists v :: GetMetadata(s, id, StorageKey()) == Ok(Some(v))
  {
    HasMetadataEntry(s, id, StorageKey())
  }

  /** `load_contract`: `None` when there is no entry or the store reports an error, else the
      decoded entry. */
  function LoadContract(s: StoreState, id: ContractIdentifier): (r: Option<ContractAnalysis>)
    requires WellFormed(s)
    ensures r.Some? <==> HasContract(s, id)
    ensures r.None? <==> GetMetadata(s, id, StorageKey()).Err? || GetMetadata(s, id, StorageKey()).value.None?
    ensures r.Some? ==> exists doc :: GetMetadata(s, id, StorageKey()) == Ok(Some(Document(doc)))
                                      && Deserialize(doc) == Some(r.value)
  {
    match GetMetadata(s, id, StorageKey())
    case Err(_) => None
    case Ok(None) => None
    case Ok(Some(v)) =>
      WellFormedRead(s, id, v);
      Some(Deserialize(v.doc).value)
  }

  /** The new state and the result of an operation that may fail. */
  datatype Transition<T> = Transition(state: StoreState, result: Result<T, CheckError>)

  /** `insert_contract`: refuse an identifier that already has an analysis entry, otherwise
      write the serialized analysis into the innermost frame. */
  function InsertContractIn(s: StoreState, id: ContractIdentifier, a: ContractAnalysis): (t: Transition<()>)
    requires |s.frames| > 0
    ensures t.result.Err? <==> HasContract(s, id)
    ensures t.result.Err? ==> t.result.error == ContractAlreadyExists(id) && t.state == s
    ensures SameBelowTop(s, t.state)
  {
    if HasMetadataEntry(s, id, StorageKey()) then Transition(s, Err(ContractAlreadyExists(id)))
    else Transition(Put(s, Metadata(id, StorageKey()), Document(Serialize(a))), Ok(()))
  }

  /** `test_insert_contract_hash`: register a placeholder hash for the contract. */
  function InsertContractHashIn(s: StoreState, id: ContractIdentifier): (t: StoreState)
    requires |s.frames| > 0
    ensures SameBelowTop(s, t)
    ensures Read(t, ContractHash(id)) == Some(Digest(ZeroDigest))
  {
    Put(s, ContractHash(id), Digest(ZeroDigest))
  }

  // The projection getters. Each loads the whole analysis first.

  function GetPublicFunctionType(s: StoreState, id: ContractIdentifier, name: Name): (r: Result<Option<FunctionType>, CheckError>)
    requires WellFormed(s)
    ensures r.Err? <==> !HasContract(s, id)
    ensures r.Err? ==> r.error == NoSuchContract(id)
    ensures r.Ok? ==> r.value == LoadContract(s, id).value.GetPublicFunctionType(name)
  {
    match LoadContract(s, id)
    case None => Err(NoSuchContract(id))
    case Some(c) => Ok(c.GetPublicFunctionType(name))
  }

  function GetReadOnlyFunctionType(s: StoreState, id: ContractIdentifier, name: Name): (r: Result<Option<FunctionType>, CheckError>)
    requires WellFormed(s)
    ensures r.Err? <==> !HasContract(s, id)
    ensures r.Err? ==> r.error == NoSuchContract(id)
    ensures r.Ok? ==> r.value == LoadContract(s, id).value.GetReadOnlyFunctionType(name)
  {
    match LoadContract(s, id)
    case None => Err(NoSuchContract(id))
    case Some(c) => Ok(c.GetReadOnlyFunctionType(name))
  }

  function GetDefinedTrait(s: StoreState, id: ContractIdentifier, name: Name): (r: Result<Option<map<Name, FunctionSignature>>, CheckError>)
    requires WellFormed(s)
    ensures r.Err? <==> !HasContract(s, id)
    ensures r.Err? ==> r.error == NoSuchContract(id)
    ensures r.Ok? ==> r.value == LoadContract(s, id).value.GetDefinedTrait(name)
  {
    match LoadContract(s, id)
    case None => Err(NoSuchContract(id))
    case Some(c) => Ok(c.GetDefinedTrait(name))
  }

  function GetImplementedTraits(s: StoreState, id: ContractIdentifier): (r: Result<set<TraitIdentifier>, CheckError>)
    requires WellFormed(s)
    ensures r.Err? <==> !HasContract(s, id)
    ensures r.Err? ==> r.error == NoSuchContract(id)
    ensures r.Ok? ==> r.value == LoadContract(s, id).value.implementedTraits
  {
    match LoadContract(s, id)
    case None => Err(NoSuchContract(id))
    case Some(c) => Ok(c.implementedTraits)
  }

  /** The contract is checked before the map: `NoSuchMap` only for a present contract. */
  function GetMapType(s: StoreState, id: ContractIdentifier, name: Name): (r: Result<(TypeSignature, TypeSignature), CheckError>)
    requires WellFormed(s)
    ensures r == Err(NoSuchContract(id)) <==> !HasContract(s, id)
    ensures r == Err(NoSuchMap(name)) <==> HasContract(s, id) && name !in LoadContract(s, id).value.mapTypes
    ensures r.Ok? <==> HasContract(s, id) && name in LoadContract(s, id).value.mapTypes
    ensures r.Ok? ==> r.value == LoadContract(s, id).value.mapTypes[name]
  {
    match LoadContract(s, id)
    case None => Err(NoSuchContract(id))
    case Some(c) =>
      match c.GetMapType(name)
      case None => Err(NoSuchMap(name))
      case Some(p) => Ok(p)
  }

  // Units of work. The closure handed to `execute` is modelled as a program of database
  // calls: each call's error is propagated with `?`, and the program ends with the value
  // the closure returns.

  datatype Step =
    | InsertCall(id: ContractIdentifier, analysis: ContractAnalysis)  // db.insert_contract(id, &analysis)?
    | HashCall(id: ContractIdentifier)                                // db.test_insert_contract_hash(id)
    | ExecuteCall(body: seq<Step>)                                    // db.execute(|db| { body; Ok(()) })?
    | Raise(error: CheckError)                                        // return Err(error)

  datatype Work<T> = Work(steps: seq<Step>, value: T)

  /** Running the body of a unit of work in the current frame, stopping at the first error. */
  function RunSteps(s: StoreState, steps: seq<Step>): (t: Transition<()>)
    requires |s.frames| > 0
    ensures SameBelowTop(s, t.state)
    decreases steps, 0
  {
    if |steps| == 0 then Transition(s, Ok(()))
    else
      var t := RunStep(s, steps[0]);
      if t.result.Err? then t else RunSteps(t.state, steps[1..])
  }

  /** One database call of a unit of work. */
  function RunStep(s: StoreState, step: Step): (t: Transition<()>)
    requires |s.frames| > 0
    ensures SameBelowTop(s, t.state)
    decreases step
  {
    match step
    case InsertCall(id, a) => InsertContractIn(s, id, a)
    case HashCall(id) => Transition(InsertContractHashIn(s, id), Ok(()))
    case ExecuteCall(body) => ExecuteIn(s, Work(body, ()))
    case Raise(e) => Transition(s, Err(e))
  }

  /** `execute`: nest, run the work, roll back and pass the error on if it fails, commit and
      return its value if it succeeds. A failed unit of work leaves the store exactly as it was. */
  function ExecuteIn<T>(s: StoreState, work: Work<T>): (t: Transition<T>)
    ensures t.result.Ok? <==> RunSteps(Nested(s), work.steps).result.Ok?
    ensures t.result.Err? ==> t.state == s && t.result == Err(RunSteps(Nested(s), work.steps).result.error)
    ensures t.result.Ok? ==> t.result.value == work.value
    ensures |s.frames| > 0 ==> SameBelowTop(s, t.state)
    ensures |s.frames| == 0 ==> t.state.frames == []
    decreases work.steps, 1
  {
    var run := RunSteps(Nested(s), work.steps);
    if run.result.Err? then
      RollbackDiscardsWrites(s, run.state);
      Transition(RolledBack(run.state), Err(run.result.error))
    else
      CommitIntoEnclosing(s, run.state);
      Transition(Committed(run.state), Ok(work.value))
  }

  lemma CommitIntoEnclosing(s: StoreState, t: StoreState)
    requires SameBelowTop(Nested(s), t)
    ensures |s.frames| > 0 ==> SameBelowTop(s, Committed(t))
    ensures |s.frames| == 0 ==> Committed(t).frames == []
  {
  }

  // The invariant is kept by every operation.

  lemma NestedWellFormed(s: StoreState)
    requires WellFormed(s)
    ensures WellFormed(Nested(s))
  {
  }

  lemma CommittedWellFormed(s: StoreState)
    requires WellFormed(s) && |s.frames| > 0
    ensures WellFormed(Committed(s))
  {
  }

  lemma RolledBackWellFormed(s: StoreState)
    requires WellFormed(s) && |s.frames| > 0
    ensures WellFormed(RolledBack(s))
  {
  }

  lemma PutWellFormed(s: StoreState, k: StoreKey, v: Value)
    requires WellFormed(s) && |s.frames| > 0 && EntryDecodes(k, v)
    ensures WellFormed(Put(s, k, v))
  {
  }

  lemma InsertWellFormed(s: StoreState, id: ContractIdentifier, a: ContractAnalysis)
    requires WellFormed(s) && |s.frames| > 0
    ensures WellFormed(InsertContractIn(s, id, a).state)
  {
    if !HasContract(s, id) {
      RoundTrip(a);
      PutWellFormed(s, Metadata(id, StorageKey()), Document(Serialize(a)));
    }
  }

  lemma HashWellFormed(s: StoreState, id: ContractIdentifier)
    requires WellFormed(s) && |s.frames| > 0
    ensures WellFormed(InsertContractHashIn(s, id))
  {
  }

  /** The database, updated in place through the store it wraps. */
  class AnalysisDatabase {
    const store: RollbackWrapper

    ghost predicate Valid()
      reads store
    {
      WellFormed(store.State())
    }

    /** `new_with_rollback_wrapper`. */
    constructor (store: RollbackWrapper)
      requires WellFormed(store.State())
      ensures this.store == store && Valid()
    {
      this.store := store;
    }

    method Begin()
      requires Valid()
      modifies store
      ensures Valid()
      ensures store.State() == Nested(old(store.State()))
    {
      NestedWellFormed(store.State());
      store.Nest();
    }

    method Commit()
      requires Valid() && |store.frames| > 0
      modifies store
      ensures Valid()
      ensures store.State() == Committed(old(store.State()))
    {
      CommittedWellFormed(store.State());
      store.Commit();
    }

    method RollBack()
      requires Valid() && |store.frames| > 0
      modifies store
      ensures Valid()
      ensures store.State() == RolledBack(old(store.State()))
    {
      RolledBackWellFormed(store.State());
      store.Rollback();
    }

    method InsertContract(id: ContractIdentifier, a: ContractAnalysis) returns (r: Result<(), CheckError>)
      requires Valid() && |store.frames| > 0
      modifies store
      ensures Valid()
      ensures Transition(store.State(), r) == InsertContractIn(old(store.State()), id, a)
    {
      InsertWellFormed(store.State(), id, a);
      var key := StorageKey();
      if HasMetadataEntry(store.State(), id, key) {
        return Err(ContractAlreadyExists(id));
      }
      store.InsertMetadata(id, key, Serialize(a));
      r := Ok(());
    }

    method TestInsertContractHash(id: ContractIdentifier)
      requires Valid() && |store.frames| > 0
      modifies store
      ensures Valid()
      ensures store.State() == InsertContractHashIn(old(store.State()), id)
    {
      HashWellFormed(store.State(), id);
      store.PrepareForContractMetadata(id, ZeroDigest);
    }

    method Execute<T>(work: Work<T>) returns (r: Result<T, CheckError>)
      requires Valid()
      modifies store
      ensures Valid()
      ensures Transition(store.State(), r) == ExecuteIn(old(store.State()), work)
      decreases work.steps, 1
    {
      Begin();
      var result := Perform(work.steps);
      if result.Err? {
        RollBack();
        return Err(result.error);
      }
      Commit();
      r := Ok(work.value);
    }

    /** Runs the body of a unit of work, stopping at the first error. */
    method Perform(steps: seq<Step>) returns (r: Result<(), CheckError>)
      requires Valid() && |store.frames| > 0
      modifies store
      ensures Valid()
      ensures Transition(store.State(), r) == RunSteps(old(store.State()), steps)
      decreases steps, 0
    {
      var i := 0;
      while i < |steps|
        invariant 0 <= i <= |steps|
        invariant Valid() && |store.frames| == |old(store.frames)|
        invariant RunSteps(old(store.State()), steps) == RunSteps(store.State(), steps[i..])
      {
        assert steps[i..][0] == steps[i] && steps[i..][1..] == steps[i + 1..];
        var res := PerformStep(steps[i]);
        if res.Err? {
          return res;
        }
        i := i + 1;
      }
      r := Ok(());
    }

    method PerformStep(step: Step) returns (r: Result<(), CheckError>)
      requires Valid() && |store.frames| > 0
      modifies store
      ensures Valid()
      ensures Transition(store.State(), r) == RunStep(old(store.State()), step)
      decreases step
    {
      match step {
        case InsertCall(id, a) =>
          r := InsertContract(id, a);
        case HashCall(id) =>
          TestInsertContractHash(id);
          r := Ok(());
        case ExecuteCall(body) =>
          r := Execute(Work(body, ()));
        case Raise(e) =>
          r := Err(e);
      }
    }
  }
}
