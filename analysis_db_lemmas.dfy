/** Properties of the analysis database that relate several operations. */
module AnalysisDbProperties {
  import opened Wrappers
  import opened Clarity
  import opened Serialization
  import opened Store
  import opened AnalysisDb

  /** After a successful insert the contract is present, loads back as the analysis that was
      inserted, and every other metadata entry reads as before. */
  lemma InsertThenLoad(s: StoreState, id: ContractIdentifier, a: ContractAnalysis)
    requires WellFormed(s) && |s.frames| > 0 && !HasContract(s, id)
    ensures var t := InsertContractIn(s, id, a);
      t.result == Ok(()) && WellFormed(t.state) && HasContract(t.state, id) && LoadContract(t.state, id) == Some(a)
      && forall c, k :: c != id || k != StorageKey() ==> GetMetadata(t.state, c, k) == GetMetadata(s, c, k)
  {
    var v := Document(Serialize(a));
    var t := InsertContractIn(s, id, a);
    assert t.state == Put(s, Metadata(id, StorageKey()), v);
    InsertWellFormed(s, id, a);
    GetMetadataAfterPut(s, Metadata(id, StorageKey()), v, id, StorageKey());
    RoundTrip(a);
    forall c, k | c != id || k != StorageKey() ensures GetMetadata(t.state, c, k) == GetMetadata(s, c, k) {
      GetMetadataAfterPut(s, Metadata(id, StorageKey()), v, c, k);
    }
  }

  /** Write-once: a second insert under the same identifier is refused, changes nothing, and
      the first analysis is still the one that loads. */
  lemma WriteOnce(s: StoreState, id: ContractIdentifier, a: ContractAnalysis, b: ContractAnalysis)
    requires WellFormed(s) && |s.frames| > 0 && InsertContractIn(s, id, a).result.Ok?
    ensures var first := InsertContractIn(s, id, a).state;
      var second := InsertContractIn(first, id, b);
      second.result == Err(ContractAlreadyExists(id)) && second.state == first
      && WellFormed(second.state) && LoadContract(second.state, id) == Some(a)
  {
    InsertThenLoad(s, id, a);
  }

  /** A commit keeps what is present and what loads: always when nested, and at top level for
      a contract whose hash is already committed. After a top-level commit the next read comes
      from a new frame, so the facts are stated for `Nested(Committed(s))`. */
  lemma CommitKeepsContracts(s: StoreState, id: ContractIdentifier)
    requires WellFormed(s) && (|s.frames| > 1 || (|s.frames| == 1 && ContractHash(id) in s.base))
    ensures WellFormed(Nested(Committed(s)))
    ensures HasContract(Nested(Committed(s)), id) == HasContract(s, id)
    ensures LoadContract(Nested(Committed(s)), id) == LoadContract(s, id)
    ensures |s.frames| > 1 ==> WellFormed(Committed(s)) && HasContract(Committed(s), id) == HasContract(s, id)
                               && LoadContract(Committed(s), id) == LoadContract(s, id)
  {
    var c := Committed(s);
    CommittedWellFormed(s);
    NestedWellFormed(c);
    if |s.frames| > 1 {
      NestedCommitPreservesGetMetadata(s, id, StorageKey());
    } else {
      TopLevelCommitPreservesGetMetadata(s, id, StorageKey());
    }
    assert GetMetadata(Nested(c), id, StorageKey()) == GetMetadata(c, id, StorageKey());
  }

  /** Write-once survives a commit of the frame the analysis was inserted in: always when nested,
      and at top level when the contract's hash is in the committed store after the commit. A
      later insert, in a new frame, is refused and the first analysis still loads. */
  lemma WriteOnceAfterCommit(s: StoreState, id: ContractIdentifier, a: ContractAnalysis, b: ContractAnalysis)
    requires WellFormed(s) && |s.frames| > 0 && InsertContractIn(s, id, a).result.Ok?
    requires |s.frames| > 1 || ContractHash(id) in Committed(InsertContractIn(s, id, a).state).base
    ensures var c := Nested(Committed(InsertContractIn(s, id, a).state));
      WellFormed(c) && LoadContract(c, id) == Some(a)
      && InsertContractIn(c, id, b) == Transition(c, Err(ContractAlreadyExists(id)))
  {
    var t := InsertContractIn(s, id, a).state;
    InsertThenLoad(s, id, a);
    if |s.frames| > 1 {
      CommitKeepsContracts(t, id);
    } else {
      var k := Metadata(id, StorageKey());
      var c := Committed(t);
      CommittedWellFormed(t);
      NestedWellFormed(c);
      assert Top(t)[k] == Document(Serialize(a));
      assert GetMetadata(c, id, StorageKey()) == Ok(Some(Document(Serialize(a))));
      assert GetMetadata(Nested(c), id, StorageKey()) == GetMetadata(c, id, StorageKey());
      RoundTrip(a);
    }
  }

  /** At top level the hash gate decides: after a successful unit of work, a contract it inserted
      is present exactly when its hash is in the committed store; when it is not, inserting the
      contract again succeeds. */
  lemma TopLevelCommitWithoutHash<T>(s: StoreState, work: Work<T>, id: ContractIdentifier, b: ContractAnalysis)
    requires |s.frames| == 0 && ExecuteIn(s, work).result.Ok? && id in InsertedBy(work.steps)
    ensures var t := ExecuteIn(s, work).state;
      (HasContract(Nested(t), id) <==> ContractHash(id) in t.base)
      && (ContractHash(id) !in t.base ==> InsertContractIn(Nested(t), id, b).result.Ok?)
  {
    RunInsertsVisible(Nested(s), work.steps);
    ExecuteCommitsWrites(s, work);
    var t := ExecuteIn(s, work).state;
    assert Metadata(id, StorageKey()) in t.base;
    assert GetMetadata(Nested(t), id, StorageKey()) == GetMetadata(t, id, StorageKey());
  }

  /** Committing the placeholder hash at top level makes an analysis entry that was committed
      earlier without a hash readable: a contract that was absent becomes present. */
  lemma HashCommitRevealsEntry(s: StoreState, id: ContractIdentifier)
    requires |s.frames| == 0 && Metadata(id, StorageKey()) in s.base
    ensures !HasContract(Nested(s), id) <==> ContractHash(id) !in s.base
    ensures HasContract(Nested(ExecuteIn(s, Work([HashCall(id)], ())).state), id)
  {
    var steps := [HashCall(id)];
    assert RunSteps(Nested(s), steps) == RunStep(Nested(s), steps[0]);
    var t := ExecuteIn(s, Work(steps, ())).state;
    assert GetMetadata(Nested(t), id, StorageKey()) == GetMetadata(t, id, StorageKey());
    assert GetMetadata(Nested(s), id, StorageKey()) == GetMetadata(s, id, StorageKey());
  }

  /** `has_contract` looks only at whether an analysis entry exists: any value written under
      the key, even one that is not a serialized analysis, makes the contract present. */
  lemma HasContractIgnoresContent(s: StoreState, id: ContractIdentifier, v: Value)
    requires |s.frames| > 0
    ensures HasContract(Put(s, Metadata(id, StorageKey()), v), id)
    ensures forall c :: c != id ==> HasContract(Put(s, Metadata(id, StorageKey()), v), c) == HasContract(s, c)
  {
  }

  /** After inserting `a`, every getter answers with the corresponding facet of `a`; the map
      getter fails with `NoSuchMap` exactly for a map `a` does not declare. */
  lemma ProjectionsAfterInsert(s: StoreState, id: ContractIdentifier, a: ContractAnalysis, name: Name)
    requires WellFormed(s) && |s.frames| > 0 && !HasContract(s, id)
    ensures var t := InsertContractIn(s, id, a).state;
      WellFormed(t)
      && GetPublicFunctionType(t, id, name) == Ok(Lookup(a.publicFunctionTypes, name))
      && GetReadOnlyFunctionType(t, id, name) == Ok(Lookup(a.readOnlyFunctionTypes, name))
      && GetDefinedTrait(t, id, name) == Ok(Lookup(a.definedTraits, name))
      && GetImplementedTraits(t, id) == Ok(a.implementedTraits)
      && GetMapType(t, id, name) == if name in a.mapTypes then Ok(a.mapTypes[name]) else Err(NoSuchMap(name))
  {
    InsertThenLoad(s, id, a);
  }

  /** The placeholder hash is not an analysis entry: registering it changes no metadata read
      while it is pending. */
  lemma HashKeepsMetadata(s: StoreState, id: ContractIdentifier)
    requires |s.frames| > 0
    ensures forall c, k :: GetMetadata(InsertContractHashIn(s, id), c, k) == GetMetadata(s, c, k)
  {
  }

  /** Once the placeholder hash is committed, the contract's metadata reads no longer fail. */
  lemma CommittedHashEnablesReads(s: StoreState, id: ContractIdentifier, key: string)
    requires |s.frames| == 1
    ensures GetMetadata(Nested(Committed(InsertContractHashIn(s, id))), id, key).Ok?
  {
    var c := Committed(InsertContractHashIn(s, id));
    assert GetMetadata(Nested(c), id, key) == GetMetadata(c, id, key);
  }

  /** A unit of work that succeeds returns its value and folds everything it wrote, `w`, into
      the enclosing frame, or into the committed base when there is none. */
  lemma ExecuteCommitsWrites<T>(s: StoreState, work: Work<T>)
    requires ExecuteIn(s, work).result.Ok?
    ensures var w := Top(RunSteps(Nested(s), work.steps).state);
      var t := ExecuteIn(s, work);
      t.result == Ok(work.value)
      && (|s.frames| > 0 ==> t.state == StoreState(s.base, s.frames[..|s.frames| - 1] + [Top(s) + w]))
      && (|s.frames| == 0 ==> t.state == StoreState(s.base + w, []))
  {
  }

  /** After a successful unit of work, raw reads (`Read`, which ignores the hash gate) see its
      writes over what they saw before. */
  lemma ExecuteSuccessReads<T>(s: StoreState, work: Work<T>, k: StoreKey)
    requires ExecuteIn(s, work).result.Ok?
    ensures var w := Top(RunSteps(Nested(s), work.steps).state);
      Read(ExecuteIn(s, work).state, k) == if k in w then Some(w[k]) else Read(s, k)
  {
  }

  /** Inside an enclosing frame, the metadata reads after a successful unit of work see its
      writes over what they saw before, errors included. */
  lemma ExecuteSuccessMetadata<T>(s: StoreState, work: Work<T>, id: ContractIdentifier, key: string)
    requires |s.frames| > 0 && ExecuteIn(s, work).result.Ok?
    ensures var w := Top(RunSteps(Nested(s), work.steps).state);
      GetMetadata(ExecuteIn(s, work).state, id, key)
      == if Metadata(id, key) in w then Ok(Some(w[Metadata(id, key)])) else GetMetadata(s, id, key)
  {
    var r := RunSteps(Nested(s), work.steps).state;
    var w := Top(r);
    var n := |s.frames|;
    assert r.frames[..n] == s.frames;
    assert r.frames == s.frames + [w];
    NestedCommitPreservesGetMetadata(r, id, key);
  }

  /** Keys of the innermost frame stay there through one call, whether it succeeds or not. */
  lemma StepKeepsTopKeys(s: StoreState, step: Step)
    requires |s.frames| > 0
    ensures Top(s).Keys <= Top(RunStep(s, step).state).Keys
  {
  }

  /** Keys of the innermost frame stay there while a unit of work runs, whether it succeeds or not. */
  lemma {:induction false} RunKeepsTopKeys(s: StoreState, steps: seq<Step>)
    requires |s.frames| > 0
    ensures Top(s).Keys <= Top(RunSteps(s, steps).state).Keys
    decreases steps
  {
    if |steps| > 0 {
      var t := RunStep(s, steps[0]);
      StepKeepsTopKeys(s, steps[0]);
      if t.result.Ok? {
        RunKeepsTopKeys(t.state, steps[1..]);
      }
    }
  }

  /** The contracts a unit of work inserts: its own insert steps and, through nested `execute`
      calls, theirs. */
  function InsertedBy(steps: seq<Step>): set<ContractIdentifier>
    decreases steps, 0
  {
    if |steps| == 0 then {} else StepInserts(steps[0]) + InsertedBy(steps[1..])
  }

  function StepInserts(step: Step): set<ContractIdentifier>
    decreases step
  {
    match step
    case InsertCall(id, _) => {id}
    case ExecuteCall(body) => InsertedBy(body)
    case HashCall(_) => {}
    case Raise(_) => {}
  }

  /** A run that succeeds leaves an analysis entry in the innermost frame for every contract it
      inserted, directly or through a nested `execute`. */
  lemma {:induction false} RunInsertsVisible(s: StoreState, steps: seq<Step>)
    requires |s.frames| > 0 && RunSteps(s, steps).result.Ok?
    ensures forall id :: id in InsertedBy(steps) ==> Metadata(id, StorageKey()) in Top(RunSteps(s, steps).state)
    decreases steps, 0
  {
    if |steps| > 0 {
      var next := RunStep(s, steps[0]).state;
      StepInsertsVisible(s, steps[0]);
      RunKeepsTopKeys(next, steps[1..]);
      RunInsertsVisible(next, steps[1..]);
    }
  }

  /** One successful call leaves an analysis entry in the innermost frame for every contract it
      inserted. */
  lemma {:induction false} StepInsertsVisible(s: StoreState, step: Step)
    requires |s.frames| > 0 && RunStep(s, step).result.Ok?
    ensures forall id :: id in StepInserts(step) ==> Metadata(id, StorageKey()) in Top(RunStep(s, step).state)
    decreases step
  {
    match step
    case InsertCall(_, _) =>
    case ExecuteCall(body) =>
      RunInsertsVisible(Nested(s), body);
      ExecuteCommitsWrites(s, Work(body, ()));
    case HashCall(_) =>
    case Raise(_) =>
  }

  /** Atomicity, success side: every contract a successful unit of work inserted, directly or
      through a nested `execute`, is present afterwards: always inside an enclosing frame, and at
      top level when its hash is in the committed store after the commit. (The failure side is
      part of `ExecuteIn`'s contract: the state is exactly the one before.) */
  lemma ExecutePublishesInserts<T>(s: StoreState, work: Work<T>, id: ContractIdentifier)
    requires ExecuteIn(s, work).result.Ok? && id in InsertedBy(work.steps)
    requires |s.frames| > 0 || ContractHash(id) in ExecuteIn(s, work).state.base
    ensures HasContract(Nested(ExecuteIn(s, work).state), id)
    ensures |s.frames| > 0 ==> HasContract(ExecuteIn(s, work).state, id)
  {
    var k := Metadata(id, StorageKey());
    RunInsertsVisible(Nested(s), work.steps);
    ExecuteCommitsWrites(s, work);
    var t := ExecuteIn(s, work).state;
    if |s.frames| > 0 {
      assert k in t.frames[|t.frames| - 1];
    } else {
      assert k in t.base;
    }
    assert GetMetadata(Nested(t), id, StorageKey()) == GetMetadata(t, id, StorageKey());
  }

  /** Write-once across `execute`: a contract a successful unit of work inserted cannot be
      inserted again afterwards, under the condition of `ExecutePublishesInserts`. */
  lemma ExecuteThenWriteOnce<T>(s: StoreState, work: Work<T>, id: ContractIdentifier, b: ContractAnalysis)
    requires ExecuteIn(s, work).result.Ok? && id in InsertedBy(work.steps)
    requires |s.frames| > 0 || ContractHash(id) in ExecuteIn(s, work).state.base
    ensures var t := ExecuteIn(s, work).state;
      InsertContractIn(Nested(t), id, b) == Transition(Nested(t), Err(ContractAlreadyExists(id)))
      && (|t.frames| > 0 ==> InsertContractIn(t, id, b) == Transition(t, Err(ContractAlreadyExists(id))))
  {
    ExecutePublishesInserts(s, work, id);
  }
}
