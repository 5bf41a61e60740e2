# Contract-analysis metadata database, modelled in Dafny

This project models `AnalysisDatabase` from `src/vm/analysis/analysis_db.rs`. It is the store in which the Clarity
static analyser caches one `ContractAnalysis` per contract. The database wraps a nested-transaction
store (`RollbackWrapper`). It adds four things on top:

- scoped transactions: `execute`, `begin`, `commit` and `roll_back`;
- a write-once table, with one serialized analysis per contract under the fixed metadata key `"analysis"`;
- the reads `has_contract` and `load_contract`;
- five projection getters, with the typed errors `NoSuchContract` and `NoSuchMap`.

Layout, one module per file:

- `wrappers.dfy` (`Wrappers`): `Option`, and `Result` with `Ok`/`Err`.
- `clarity.dfy` (`Clarity`): contract and trait identifiers, function types, `ContractAnalysis` as a record of
  maps (function name to type, trait name to signature map, set of implemented traits, map name to key and value
  type), and `CheckError`.
- `serialization.dfy` (`Serialization`): the analysis is encoded as a JSON document tree.
  `Deserialize(Serialize(a)) == Some(a)` is proved, not assumed.
- `store.dfy` (`Store`): the abstract store. `StoreState` is a committed base map plus a stack of pending frames,
  each a map from store keys to values. Its pure operations are `Nested`, `Committed`, `RolledBack`, `Put` and the
  reads. The class `RollbackWrapper` performs the same operations in place.
- `analysis_db.dfy` (`AnalysisDb`): the database.
  - The read-only operations (`HasContract`, `LoadContract`, the getters) are functions of the store's state, so
    by construction they never modify the store.
  - The state-changing operations are specified as functions (`InsertContractIn`, `InsertContractHashIn`,
    `ExecuteIn`).
  - The class `AnalysisDatabase` carries them out as methods over its `store`.
  - The class invariant `Valid()` says every `"analysis"` entry decodes. In the Rust code, decoding an
    undecodable entry is a panic, so the class keeps this invariant.
- `analysis_db_lemmas.dfy` (`AnalysisDbProperties`): the properties that relate several calls.
  These are write-once, load after insert, projections after insert, and atomicity of `execute`.

Modelling decisions:

- Store keys are either `Metadata(contract, key)` or `ContractHash(contract)`, the entry that registers a
  contract with the backing store.
- A metadata read first looks through the pending frames, innermost first. If no frame has the key, the committed
  base answers, but only for a contract whose hash is committed. For any other contract the read is an error.
  This is how the model gives `load_contract`'s `.ok()?` its error path, and why `test_insert_contract_hash`
  registers a (placeholder) hash. The hash entry is not an analysis entry, so registering it does not make
  `has_contract` true while it is pending (`HashKeepsMetadata`). Committing the hash at top level, however, can
  make an analysis entry that was committed earlier without a hash visible (`HashCommitRevealsEntry`).
- `has_contract` is true as soon as any value is visible under `"analysis"`, whatever that value is.
- The closure passed to `execute` is modelled as a small program of database calls (`Step`). The calls are
  `insert_contract(..)?`, `test_insert_contract_hash(..)`, a nested `execute(..)?` and `return Err(e)`. A
  `Work<T>` also carries the value the closure returns on success. `ExecuteIn` nests a frame, runs the program,
  rolls back and passes the error on unchanged if it fails, and commits and returns the value if it succeeds.

`load_contract` turns only an error from the store's `get_metadata` into `None` (line 94).
`ContractAnalysis::deserialize` returns the analysis itself, not an `Option` (line 95), so an entry that does not
decode cannot become `None`. The model therefore keeps "every analysis entry decodes" as an invariant of the
database.

What the hash gate means for write-once: inside an enclosing frame, a commit changes no metadata read, so write-once
and presence after `execute` carry through any number of nested commits. At top level, the pending entries move
into the committed store, which answers metadata reads only for a contract whose hash is committed. So after a
top-level `execute`, a contract the work inserted is present exactly when its hash is in the committed store
afterwards, whether it was committed before or registered by the work itself (`TopLevelCommitWithoutHash`, both
directions). When it is, write-once holds (`ExecuteThenWriteOnce`, `WriteOnceAfterCommit`); when it is not, a
second insert succeeds. The Rust code cannot read a store with no open frame, so these facts are stated for the
state after the next `begin`.

## Model

| member | source | states |
|---|---|---|
| `Serialization.Serialize` | src/vm/analysis/analysis_db.rs:109 | `contract.serialize()`: a record with exactly the five stored fields; what it preserves is `RoundTrip` |
| `Serialization.Deserialize` | src/vm/analysis/analysis_db.rs:95 | `ContractAnalysis::deserialize`: refuses anything but a record holding the five fields; that it inverts `Serialize` is `RoundTrip` |
| `Clarity.ContractAnalysis.GetPublicFunctionType` | src/vm/analysis/analysis_db.rs:125 | the analysis's own getter: some type exactly when the name is a public function of the analysis, and then its type |
| `Clarity.ContractAnalysis.GetReadOnlyFunctionType` | src/vm/analysis/analysis_db.rs:140 | some type exactly when the name is a read-only function of the analysis, and then its type |
| `Clarity.ContractAnalysis.GetDefinedTrait` | src/vm/analysis/analysis_db.rs:155 | some signature map exactly when the name is a trait the analysis defines, and then its signatures |
| `Clarity.ContractAnalysis.GetMapType` | src/vm/analysis/analysis_db.rs:176-177 | some (key, value) type pair exactly when the name is a map the analysis declares, and then that pair |
| `Serialization.RoundTrip` | src/vm/analysis/analysis_db.rs:95 | decoding the serialized form of any analysis gives back exactly that analysis, so every facet survives storage |
| `Store.HasMetadataEntry` | src/vm/analysis/analysis_db.rs:104 | an entry exists exactly when the metadata read succeeds and finds some value (a definition; what it means after writes and commits is proved in `GetMetadataAfterPut`, `HashKeepsMetadata` and `CommitKeepsContracts`) |
| `Store.CommitPreservesRead` | src/vm/analysis/analysis_db.rs:59-61 | folding the innermost frame into the one below (or into the base) changes no raw `Read` of any key; `Read` ignores the hash gate, see the next two rows for the metadata read |
| `Store.CommitPreservesPending` | src/vm/analysis/analysis_db.rs:59-61 | a nested commit keeps the base and changes no pending lookup of any key |
| `Store.NestedCommitPreservesGetMetadata` | src/vm/analysis/analysis_db.rs:59-61 | a nested commit changes no metadata read, whether that read succeeds or fails |
| `Store.TopLevelCommitPreservesGetMetadata` | src/vm/analysis/analysis_db.rs:59-61 | a top-level commit changes no metadata read of a contract whose hash was already committed |
| `Store.GetMetadata` | src/vm/analysis/analysis_db.rs:90-94 | the metadata read fails, with `UnknownContract(id)`, exactly when no pending frame holds the entry and the contract's hash is not committed; when it succeeds it returns what the raw `Read` of the entry sees |
| `Store.Nested` | src/vm/analysis/analysis_db.rs:55-57 | opens one empty frame; no raw read and no metadata read changes |
| `Store.Committed` | src/vm/analysis/analysis_db.rs:59-61 | closes one frame, and every key written in it reads the value written there |
| `Store.RolledBack` | src/vm/analysis/analysis_db.rs:63-65 | closes one frame and keeps the base; what was read before is the dropped frame's writes over what is read now |
| `Store.Put` | src/vm/analysis/analysis_db.rs:108-109 | changes only the innermost frame; the written key reads the new value and every other key reads as before |
| `Store.RollbackWrapper.Nest` | src/vm/analysis/analysis_db.rs:56 | the wrapper's new state is `Nested` of the old one |
| `Store.RollbackWrapper.Commit` | src/vm/analysis/analysis_db.rs:60 | the wrapper's new state is `Committed` of the old one |
| `Store.RollbackWrapper.Rollback` | src/vm/analysis/analysis_db.rs:64 | the wrapper's new state is `RolledBack` of the old one |
| `Store.RollbackWrapper.InsertMetadata` | src/vm/analysis/analysis_db.rs:108-109 | the wrapper's new state is `Put` of the document under `Metadata(id, key)` |
| `Store.RollbackWrapper.PrepareForContractMetadata` | src/vm/analysis/analysis_db.rs:77-78 | the wrapper's new state is `Put` of the digest under `ContractHash(id)` |
| `Store.RollbackDiscardsWrites` | src/vm/analysis/analysis_db.rs:63-65 | dropping a frame that was opened on `s`, and then changed only inside that frame, gives back exactly `s` |
| `Store.GetMetadataAfterPut` | src/vm/analysis/analysis_db.rs:108-109 | a write is seen by the metadata read of its own key and changes no other metadata read |
| `AnalysisDb.StorageKey` | src/vm/analysis/analysis_db.rs:67-69 | the analysis entry lives under the fixed key `"analysis"` (a constant; its use is what `InsertThenLoad` and `HasContractIgnoresContent` constrain) |
| `AnalysisDb.HasContract` | src/vm/analysis/analysis_db.rs:81-84 | true exactly when the metadata read of `(id, "analysis")` finds some value, whatever its content; its behaviour under writes and commits is proved in `HasContractIgnoresContent`, `InsertThenLoad` and `CommitKeepsContracts` |
| `AnalysisDb.LoadContract` | src/vm/analysis/analysis_db.rs:86-96 | `Some` exactly when `HasContract`; `None` exactly when the read errs or finds nothing; otherwise the decoding of the stored document |
| `AnalysisDb.InsertContractIn` | src/vm/analysis/analysis_db.rs:98-111 | fails exactly when the contract already has an entry, then with `ContractAlreadyExists(id)` and the state unchanged; only the innermost frame is ever changed |
| `AnalysisDb.InsertContractHashIn` | src/vm/analysis/analysis_db.rs:71-79 | registers the placeholder hash (32 zero bytes) for the contract in the innermost frame and changes nothing below it |
| `AnalysisDb.GetPublicFunctionType` | src/vm/analysis/analysis_db.rs:113-126 | `NoSuchContract(id)` exactly when the contract is absent; otherwise the loaded analysis's public function type of that name, if any |
| `AnalysisDb.GetReadOnlyFunctionType` | src/vm/analysis/analysis_db.rs:128-141 | `NoSuchContract(id)` exactly when the contract is absent; otherwise the loaded analysis's read-only function type of that name, if any |
| `AnalysisDb.GetDefinedTrait` | src/vm/analysis/analysis_db.rs:143-156 | `NoSuchContract(id)` exactly when the contract is absent; otherwise the loaded analysis's trait definition of that name, if any |
| `AnalysisDb.GetImplementedTraits` | src/vm/analysis/analysis_db.rs:158-166 | `NoSuchContract(id)` exactly when the contract is absent; otherwise the loaded analysis's set of implemented traits |
| `AnalysisDb.GetMapType` | src/vm/analysis/analysis_db.rs:168-180 | the contract is checked first: `NoSuchContract(id)` exactly when absent, `NoSuchMap(name)` exactly when present without that map, otherwise the stored (key, value) type pair |
| `AnalysisDb.RunSteps` | src/vm/analysis/analysis_db.rs:47 | running the work inside a frame changes at most that frame: the base and all enclosing frames are untouched |
| `AnalysisDb.RunStep` | src/vm/analysis/analysis_db.rs:47 | each database call of the work changes at most the innermost frame |
| `AnalysisDb.ExecuteIn` | src/vm/analysis/analysis_db.rs:42-53 | fails exactly when the work fails, then with the work's own error and the state exactly as before; on success returns the work's value and changes nothing but the enclosing frame (or, at top level, leaves no frame open) |
| `AnalysisDb.AnalysisDatabase.constructor` | src/vm/analysis/analysis_db.rs:38-40 | wraps the given store, which must satisfy the invariant |
| `AnalysisDb.AnalysisDatabase.Begin` | src/vm/analysis/analysis_db.rs:55-57 | pushes an empty frame and keeps the invariant |
| `AnalysisDb.AnalysisDatabase.Commit` | src/vm/analysis/analysis_db.rs:59-61 | folds the innermost frame into the one below or into the base, and keeps the invariant |
| `AnalysisDb.AnalysisDatabase.RollBack` | src/vm/analysis/analysis_db.rs:63-65 | drops the innermost frame and keeps the invariant |
| `AnalysisDb.AnalysisDatabase.InsertContract` | src/vm/analysis/analysis_db.rs:98-111 | new state and result are those of `InsertContractIn`; keeps the invariant |
| `AnalysisDb.AnalysisDatabase.TestInsertContractHash` | src/vm/analysis/analysis_db.rs:71-79 | new state is that of `InsertContractHashIn`; keeps the invariant |
| `AnalysisDb.AnalysisDatabase.Execute` | src/vm/analysis/analysis_db.rs:42-53 | new state and result are those of `ExecuteIn`; keeps the invariant |
| `AnalysisDb.AnalysisDatabase.Perform` | src/vm/analysis/analysis_db.rs:47 | runs the work's calls in order, stopping at the first error, with the state and result of `RunSteps` |
| `AnalysisDb.AnalysisDatabase.PerformStep` | src/vm/analysis/analysis_db.rs:47 | performs one call of the work with the state and result of `RunStep` |
| `AnalysisDbProperties.InsertThenLoad` | src/vm/analysis/analysis_db.rs:98-111 | after a successful insert the contract is present, loads back as the inserted analysis, and every other metadata entry reads as before |
| `AnalysisDbProperties.WriteOnce` | src/vm/analysis/analysis_db.rs:103-109 | after `insert(id, A)` succeeds, `insert(id, B)` fails with `ContractAlreadyExists`, changes nothing, and `load(id)` is still `A` |
| `AnalysisDbProperties.HasContractIgnoresContent` | src/vm/analysis/analysis_db.rs:81-84 | any value written under `(id, "analysis")`, even one that is not an analysis, makes `id` present and changes presence of no other contract |
| `AnalysisDbProperties.ProjectionsAfterInsert` | src/vm/analysis/analysis_db.rs:113-180 | after inserting `A`, each getter returns the corresponding facet of `A`, and the map getter fails with `NoSuchMap` exactly for maps `A` does not declare |
| `AnalysisDbProperties.HashKeepsMetadata` | src/vm/analysis/analysis_db.rs:71-79 | registering the placeholder hash changes no metadata read while it is pending |
| `AnalysisDbProperties.CommittedHashEnablesReads` | src/vm/analysis/analysis_db.rs:71-79 | once the placeholder hash is committed at top level, metadata reads of that contract in the next frame no longer fail |
| `AnalysisDbProperties.ExecuteCommitsWrites` | src/vm/analysis/analysis_db.rs:51-52 | a successful unit of work returns its value and its writes are folded into the enclosing frame, or into the base at top level |
| `AnalysisDbProperties.ExecuteSuccessReads` | src/vm/analysis/analysis_db.rs:51-52 | after a successful unit of work, every raw `Read` (which ignores the hash gate) sees the work's writes over what it saw before |
| `AnalysisDbProperties.ExecuteSuccessMetadata` | src/vm/analysis/analysis_db.rs:51-52 | inside an enclosing frame, after a successful unit of work, every metadata read sees the work's writes over what it saw before, errors included |
| `AnalysisDbProperties.RunKeepsTopKeys` | src/vm/analysis/analysis_db.rs:47 | entries of the innermost frame are never removed while a unit of work runs, whether it succeeds or fails |
| `AnalysisDbProperties.RunInsertsVisible` | src/vm/analysis/analysis_db.rs:47 | a successful run leaves an analysis entry in its frame for every contract it inserted, directly or through a nested `execute` |
| `AnalysisDbProperties.StepInsertsVisible` | src/vm/analysis/analysis_db.rs:47 | one successful call leaves an analysis entry in the frame for every contract it inserted, directly or through a nested `execute` |
| `AnalysisDbProperties.ExecutePublishesInserts` | src/vm/analysis/analysis_db.rs:42-53 | every contract a successful unit of work inserted, directly or through a nested `execute`, is present afterwards: always inside an enclosing frame, and at top level (in the next frame) when its hash is in the committed store after the commit, even if the work registered it itself |
| `AnalysisDbProperties.ExecuteThenWriteOnce` | src/vm/analysis/analysis_db.rs:42-53 | under the same condition, a later insert of such a contract is refused with `ContractAlreadyExists` and changes nothing |
| `AnalysisDbProperties.CommitKeepsContracts` | src/vm/analysis/analysis_db.rs:59-61 | a commit changes neither presence nor the loaded analysis, as seen from the same frame or the next one: always when nested, and at top level for a contract whose hash is already committed |
| `AnalysisDbProperties.WriteOnceAfterCommit` | src/vm/analysis/analysis_db.rs:98-111 | after insert and commit the analysis still loads and a later insert in a new frame is refused: always when nested, and at top level when the hash is in the committed store after the commit |
| `AnalysisDbProperties.TopLevelCommitWithoutHash` | src/vm/analysis/analysis_db.rs:42-53 | for any store and any successful top-level unit of work, a contract it inserted is present afterwards exactly when its hash is in the committed store; when it is not, a second insert succeeds |
| `AnalysisDbProperties.HashCommitRevealsEntry` | src/vm/analysis/analysis_db.rs:71-79 | an analysis entry committed without a hash is absent exactly while the hash is missing, and committing the placeholder hash at top level makes it present |

## Left out

- `src/clarity_vm/tests/epoch_switch.rs`: it is an integration test over a SQLite-backed sortition database. The
  epoch lookup it exercises (`get_stacks_epoch`) is not part of this model, so there is no implementation to
  model. Its epoch table and expected mapping are test vectors only.
- `new` and `destroy`: constructor and ownership plumbing. The constructor that wraps an existing store is modelled.
- Lifetimes and borrowing: they have no behavioural content.
- The internals of `RollbackWrapper`, `ClarityBackingStore` and the MARF trie: foreign code.
  - They are modelled as an abstract frame stack over a map.
  - The rule "the committed store answers metadata reads only for a contract whose hash is committed" abstracts
    the backing store's `NoSuchContract` error.
  - The store's own panic on a read outside any open frame is not modelled.
  - Writes while no frame is open do panic in the Rust code. They are excluded by `requires |frames| > 0`.
- The byte format of `ContractAnalysis::serialize` and `deserialize`: the model stores the JSON document tree.
  Rendering the tree as text is not modelled.
- `ContractAnalysis` fields this database never reads are not modelled: private functions, variable types,
  the contract's cost, and so on.
- `TypeSignature`: kept abstract, by its printed form.
- Error payloads: the Rust code's errors carry `to_string()` of the identifier; the model's carry the identifier.
- `test_insert_contract_hash`: the placeholder hash `Sha512Trunc256Sum([0; 32])` is modelled as the 32 zero bytes
  it wraps; no hashing is modelled.
- Closures that branch on what they read: a unit of work is a fixed program of state-changing calls. Reads a closure
  makes cannot change the store, so they are not steps.
- `AnalysisDb.ExecuteIn`: a unit of work never calls `begin`, `commit` or `roll_back` itself, and it passes on
  every call's error with `?`: it cannot ignore a failed insert. The closure in the Rust code is any
  `FnOnce(&mut Self)` (line 44). The promise that a failed `execute` leaves the state exactly as before rests on
  this restriction. A closure that calls `commit` and then returns an error makes line 48 roll back the enclosing
  frame instead.
- `AnalysisDb.AnalysisDatabase.Commit` and `AnalysisDb.AnalysisDatabase.RollBack`: require an open frame. In the
  Rust code, committing or rolling back with no open frame is a panic inside the store.
- `AnalysisDb.AnalysisDatabase.constructor`: requires a store whose analysis entries all decode. The Rust
  `new_with_rollback_wrapper` accepts any wrapper; a wrapper holding an undecodable entry would make a later load
  panic, which the model does not represent.
- `FunctionType`: modelled as the fixed-arity form only (a list of named, typed arguments and the return type);
  the other variants of the Rust `FunctionType` enum are not modelled.
- `AnalysisDb.LoadContract`: requires the invariant that every analysis entry decodes. In the Rust code an
  undecodable entry is a panic inside `deserialize`, and the model does not represent panics as values. The
  getters have the same requirement.
