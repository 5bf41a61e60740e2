/** The nested-transaction store the analysis database wraps (`RollbackWrapper` over a
    `ClarityBackingStore`), modelled abstractly: a committed base map and a stack of pending
    frames. `StoreState` is the abstract state, the functions below are its operations, and
    the class `RollbackWrapper` performs them in place. */
module Store {
  import opened Wrappers
  import opened Clarity
  import opened Serialization

  /** A metadata entry of a contract, or the contract-hash entry the backing store needs
      before it can answer metadata reads for that contract. */
  datatype StoreKey = Metadata(contract: ContractIdentifier, key: string) | ContractHash(contract: ContractIdentifier)

  /** A stored document, or a contract hash (digest bytes). */
  datatype Value = Document(doc: Json) | Digest(bytes: seq<bv8>)

  type Frame = map<StoreKey, Value>

  /** `frames[|frames| - 1]` is the innermost open frame; `base` is what has been committed. */
  datatype StoreState = StoreState(base: Frame, frames: seq<Frame>)

  /** The backing store's refusal to read metadata of a contract it has no hash for. */
  datatype StoreError = UnknownContract(contract: ContractIdentifier)

  /** The value of `k` in the innermost frame that holds it. */
  function PendingLookup(frames: seq<Frame>, k: StoreKey): (r: Option<Value>)
    ensures r.None? <==> forall i :: 0 <= i < |frames| ==> k !in frames[i]
    decreases |frames|
  {
    if |frames| == 0 then None
    else if k in frames[|frames| - 1] then Some(frames[|frames| - 1][k])
    else PendingLookup(frames[..|frames| - 1], k)
  }

  /** A pending value comes from the innermost frame that holds the key. */
  lemma {:induction false} PendingLookupInnermost(frames: seq<Frame>, k: StoreKey) returns (i: nat)
    requires PendingLookup(frames, k).Some?
    ensures i < |frames| && k in frames[i] && frames[i][k] == PendingLookup(frames, k).value
    ensures forall j :: i < j < |frames| ==> k !in frames[j]
    decreases |frames|
  {
    var n := |frames|;
    if k in frames[n - 1] {
      i := n - 1;
    } else {
      var prefix := frames[..n - 1];
      i := PendingLookupInnermost(prefix, k);
      assert forall j :: i < j < n - 1 ==> frames[j] == prefix[j];
    }
  }

  /** What a read of `k` sees: the innermost pending write, else the committed value. */
  function Read(s: StoreState, k: StoreKey): Option<Value> {
    match PendingLookup(s.frames, k)
    case Some(v) => Some(v)
    case None => if k in s.base then Some(s.base[k]) else None
  }

  /** `get_metadata`: pending writes first; the committed store answers only for a contract
      whose hash is committed, and reports an error otherwise. */
  function GetMetadata(s: StoreState, id: ContractIdentifier, key: string): (r: Result<Option<Value>, StoreError>)
    ensures r.Err? <==> PendingLookup(s.frames, Metadata(id, key)).None? && ContractHash(id) !in s.base
    ensures r.Err? ==> r.error == UnknownContract(id)
    ensures r.Ok? ==> r.value == Read(s, Metadata(id, key))
  {
    match PendingLookup(s.frames, Metadata(id, key))
    case Some(v) => Ok(Some(v))
    case None =>
      if ContractHash(id) !in s.base then Err(UnknownContract(id))
      else if Metadata(id, key) in s.base then Ok(Some(s.base[Metadata(id, key)]))
      else Ok(None)
  }

  /** `has_metadata_entry`: the read succeeds and finds an entry. */
  function HasMetadataEntry(s: StoreState, id: ContractIdentifier, key: string): (r: bool)
    ensures r <==> exists v :: GetMetadata(s, id, key) == Ok(Some(v))
  {
    GetMetadata(s, id, key).Ok? && GetMetadata(s, id, key).value.Some?
  }

  function Top(s: StoreState): Frame
    requires |s.frames| > 0
  {
    s.frames[|s.frames| - 1]
  }

  /** `nest`: open an empty frame. */
  function Nested(s: StoreState): (r: StoreState)
    ensures |r.frames| == |s.frames| + 1 && Top(r) == map[]
    ensures forall k :: Read(r, k) == Read(s, k)
    ensures forall id, key :: GetMetadata(r, id, key) == GetMetadata(s, id, key)
  {
    var r := s.(frames := s.frames + [map[]]);
    assert r.frames[..|s.frames|] == s.frames;
    r
  }

  /** `commit`: fold the innermost frame into the one below it, or into the base. */
  function Committed(s: StoreState): (r: StoreState)
    requires |s.frames| > 0
    ensures |r.frames| == |s.frames| - 1
    ensures forall k :: k in Top(s) ==> Read(r, k) == Some(Top(s)[k])
  {
    var n := |s.frames|;
    if n == 1 then StoreState(s.base + s.frames[0], [])
    else StoreState(s.base, s.frames[..n - 2] + [s.frames[n - 2] + s.frames[n - 1]])
  }

  /** `rollback`: drop the innermost frame with all its writes. */
  function RolledBack(s: StoreState): (r: StoreState)
    requires |s.frames| > 0
    ensures r.base == s.base && |r.frames| == |s.frames| - 1
    ensures forall k :: Read(s, k) == if k in Top(s) then Some(Top(s)[k]) else Read(r, k)
  {
    s.(frames := s.frames[..|s.frames| - 1])
  }

  /** A write, which always lands in the innermost frame. */
  function Put(s: StoreState, k: StoreKey, v: Value): (r: StoreState)
    requires |s.frames| > 0
    ensures SameBelowTop(s, r) && k in Top(r)
    ensures forall k' :: Read(r, k') == if k' == k then Some(v) else Read(s, k')
  {
    s.(frames := s.frames[..|s.frames| - 1] + [Top(s)[k := v]])
  }

  /** `t` differs from `s` at most in the innermost frame. */
  predicate SameBelowTop(s: StoreState, t: StoreState)
    requires |s.frames| > 0
  {
    t.base == s.base && |t.frames| == |s.frames| && t.frames[..|s.frames| - 1] == s.frames[..|s.frames| - 1]
  }

  // Laws of the frame stack.

  /** A write is seen by the metadata read of its own key and by no other. */
  lemma GetMetadataAfterPut(s: StoreState, k: StoreKey, v: Value, id: ContractIdentifier, key: string)
    requires |s.frames| > 0
    ensures GetMetadata(Put(s, k, v), id, key) == if k == Metadata(id, key) then Ok(Some(v)) else GetMetadata(s, id, key)
  {
  }

  /** Below the base, committing changes no pending lookup. */
  lemma {:induction false} CommitPreservesPending(s: StoreState, k: StoreKey)
    requires |s.frames| > 1
    ensures Committed(s).base == s.base
    ensures PendingLookup(Committed(s).frames, k) == PendingLookup(s.frames, k)
  {
    var n := |s.frames|;
    var c := Committed(s);
    var below, f1, f2 := s.frames[..n - 2], s.frames[n - 2], s.frames[n - 1];
    assert c.frames[..n - 2] == below;
    assert s.frames[..n - 1][..n - 2] == below;
    assert PendingLookup(c.frames, k) ==
      if k in f2 then Some(f2[k]) else if k in f1 then Some(f1[k]) else PendingLookup(below, k);
    assert PendingLookup(s.frames, k) ==
      if k in f2 then Some(f2[k]) else PendingLookup(s.frames[..n - 1], k);
    assert PendingLookup(s.frames[..n - 1], k) ==
      if k in f1 then Some(f1[k]) else PendingLookup(below, k);
  }

  /** Committing changes nothing a read sees. */
  lemma CommitPreservesRead(s: StoreState, k: StoreKey)
    requires |s.frames| > 0
    ensures Read(Committed(s), k) == Read(s, k)
  {
    if |s.frames| > 1 {
      CommitPreservesPending(s, k);
    }
  }

  /** A nested commit changes no metadata read either, successful or not. */
  lemma NestedCommitPreservesGetMetadata(s: StoreState, id: ContractIdentifier, key: string)
    requires |s.frames| > 1
    ensures GetMetadata(Committed(s), id, key) == GetMetadata(s, id, key)
  {
    CommitPreservesPending(s, Metadata(id, key));
  }

  /** A top-level commit changes no metadata read of a contract whose hash was already
      committed. (For any other contract the pending entries move into the base, where they
      are not readable until the hash is committed as well.) */
  lemma TopLevelCommitPreservesGetMetadata(s: StoreState, id: ContractIdentifier, key: string)
    requires |s.frames| == 1 && ContractHash(id) in s.base
    ensures GetMetadata(Committed(s), id, key) == GetMetadata(s, id, key)
  {
    assert s.frames[..0] == [];
  }

  /** A frame opened and dropped again leaves no trace, whatever was written into it. */
  lemma RollbackDiscardsWrites(s: StoreState, t: StoreState)
    requires SameBelowTop(Nested(s), t)
    ensures RolledBack(t) == s
  {
  }

  /** The store, updated in place. */
  class RollbackWrapper {
    var base: Frame
    var frames: seq<Frame>

    function State(): StoreState
      reads this
    {
      StoreState(base, frames)
    }

    constructor (committed: Frame)
      ensures State() == StoreState(committed, [])
    {
      base := committed;
      frames := [];
    }

    method Nest()
      modifies this
      ensures State() == Nested(old(State()))
    {
      frames := frames + [map[]];
    }

    /** Commit with no open frame is a programming error of the caller. */
    method Commit()
      requires |frames| > 0
      modifies this
      ensures State() == Committed(old(State()))
    {
      var top := frames[|frames| - 1];
      frames := frames[..|frames| - 1];
      if |frames| == 0 {
        base := base + top;
      } else {
        frames := frames[..|frames| - 1] + [frames[|frames| - 1] + top];
      }
    }

    method Rollback()
      requires |frames| > 0
      modifies this
      ensures State() == RolledBack(old(State()))
    {
      frames := frames[..|frames| - 1];
    }

    method InsertMetadata(id: ContractIdentifier, key: string, doc: Json)
      requires |frames| > 0
      modifies this
      ensures State() == Put(old(State()), Metadata(id, key), Document(doc))
    {
      var n := |frames|;
      frames := frames[..n - 1] + [frames[n - 1][Metadata(id, key) := Document(doc)]];
    }

    method PrepareForContractMetadata(id: ContractIdentifier, hash: seq<bv8>)
      requires |frames| > 0
      modifies this
      ensures State() == Put(old(State()), ContractHash(id), Digest(hash))
    {
      var n := |frames|;
      frames := frames[..n - 1] + [frames[n - 1][ContractHash(id) := Digest(hash)]];
    }
  }
}
