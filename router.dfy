/** The client's view of one vector index (vector_index.h): its identity,
    fixed at construction, the staleness flag the index cache sets and
    clears, and the two ordered maps that route a vector id to the
    partition owning it. A partition's key range is reduced to the vector
    ids it starts and ends at. */
module Router {
  import opened Common

  /** `pb::common::Range` of a partition, as vector ids. */
  datatype Range = Range(startKey: int, endKey: int)

  /** The greatest key of `m` at or below `v`, looking only at the keys
      from 0 up, which are the only keys a start-key map holds; `None` when
      there is none. */
  function FloorKey(m: map<int, int>, v: int): (r: Option<int>)
    ensures r.Some? ==> r.value in m && 0 <= r.value <= v
    ensures r.Some? ==> forall k :: k in m && r.value < k <= v ==> false
    ensures r.None? <==> forall k :: k in m && 0 <= k <= v ==> false
    decreases if v < 0 then 0 else v + 1
  {
    if v < 0 then None
    else if v in m then Some(v)
    else FloorKey(m, v - 1)
  }

  class VectorIndex {
    const id: int
    const schemaId: int
    const name: string
    const hasAutoIncrement: bool
    const incrementStartId: int
    /** Start key of each partition (0 or a vector id) to its partition id. */
    var startKeyToPartId: map<int, int>
    var partIdToRange: map<int, Range>
    var stale: bool

    /** Every start key is 0 or a vector id, and the two maps describe the
        same partitions: a start key's partition has a range beginning at
        that key, and every partition's range begins at a key routed to it. */
    ghost predicate Valid()
      reads this
    {
      && (forall k :: k in startKeyToPartId ==> k >= 0)
      && (forall k :: k in startKeyToPartId ==>
            startKeyToPartId[k] in partIdToRange && partIdToRange[startKeyToPartId[k]].startKey == k)
      && (forall p :: p in partIdToRange ==>
            partIdToRange[p].startKey in startKeyToPartId && startKeyToPartId[partIdToRange[p].startKey] == p)
    }

    /** Built from the index definition: its identity and the range of each
        partition, whose start keys are distinct and not negative. A new
        index is stale. */
    constructor(id: int, schemaId: int, name: string, hasAutoIncrement: bool, incrementStartId: int,
                partitions: map<int, Range>)
      requires forall p :: p in partitions ==> partitions[p].startKey >= 0
      requires forall p, q :: p in partitions && q in partitions && p != q ==>
                 partitions[p].startKey != partitions[q].startKey
      ensures Valid() && stale
      ensures GetId() == id && GetSchemaId() == schemaId && GetName() == name
      ensures HasAutoIncrement() == hasAutoIncrement && GetIncrementStartId() == incrementStartId
      ensures partIdToRange == partitions
      ensures startKeyToPartId.Keys == set p | p in partitions :: partitions[p].startKey
    {
      this.id := id;
      this.schemaId := schemaId;
      this.name := name;
      this.hasAutoIncrement := hasAutoIncrement;
      this.incrementStartId := incrementStartId;
      partIdToRange := partitions;
      startKeyToPartId := map p | p in partitions :: partitions[p].startKey := p;
      stale := true;
    }

    function GetId(): int { id }

    function GetSchemaId(): int { schemaId }

    function GetName(): string { name }

    function HasAutoIncrement(): bool { hasAutoIncrement }

    function GetIncrementStartId(): int { incrementStartId }

    function IsStale(): bool
      reads this
    {
      stale
    }

    method MarkStale()
      modifies this
      ensures IsStale()
      ensures startKeyToPartId == old(startKeyToPartId) && partIdToRange == old(partIdToRange)
      ensures old(Valid()) ==> Valid()
    {
      stale := true;
    }

    method UnMarkStale()
      modifies this
      ensures !IsStale()
      ensures startKeyToPartId == old(startKeyToPartId) && partIdToRange == old(partIdToRange)
      ensures old(Valid()) ==> Valid()
    {
      stale := false;
    }

    /** The partition of the greatest start key at or below `vectorId`;
        `None` when no partition starts that low. */
    function GetPartitionId(vectorId: int): (r: Option<int>)
      reads this
      ensures r.Some? <==> exists k :: k in startKeyToPartId && 0 <= k <= vectorId
      ensures r.Some? ==> exists k :: k in startKeyToPartId && 0 <= k <= vectorId && startKeyToPartId[k] == r.value &&
                            forall j :: j in startKeyToPartId && k < j <= vectorId ==> false
      ensures Valid() && r.Some? ==> r.value in partIdToRange && partIdToRange[r.value].startKey <= vectorId
    {
      match FloorKey(startKeyToPartId, vectorId)
      case None => None
      case Some(k) => Some(startKeyToPartId[k])
    }

    /** The range of a partition; the partition must be one of the index's. */
    function GetPartitionRange(partId: int): (r: Range)
      reads this
      requires partId in partIdToRange
      ensures Valid() ==> r.startKey >= 0 && r.startKey in startKeyToPartId && startKeyToPartId[r.startKey] == partId
    {
      partIdToRange[partId]
    }

    /** The ids of all partitions, each once. */
    method GetPartitionIds() returns (ids: seq<int>)
      ensures forall i :: 0 <= i < |ids| ==> ids[i] in partIdToRange
      ensures forall p :: p in partIdToRange ==> p in ids
      ensures forall i, j :: 0 <= i < j < |ids| ==> ids[i] != ids[j]
    {
      ids := [];
      var left := partIdToRange.Keys;
      while left != {}
        invariant left <= partIdToRange.Keys
        invariant forall i :: 0 <= i < |ids| ==> ids[i] in partIdToRange && ids[i] !in left
        invariant forall p :: p in partIdToRange ==> p in ids || p in left
        invariant forall i, j :: 0 <= i < j < |ids| ==> ids[i] != ids[j]
        decreases |left|
      {
        HasElement(left);
        var p :| p in left;
        ids := ids + [p];
        left := left - {p};
      }
    }
  }

  lemma HasElement(s: set<int>)
    requires s != {}
    ensures exists x :: x in s
  {
    if forall x :: x !in s {
      assert false;
    }
  }

  /** Routing a partition's start key leads back to that partition. */
  lemma RangeStartRoutesBack(index: VectorIndex, partId: int)
    requires index.Valid() && partId in index.partIdToRange
    ensures index.GetPartitionId(index.GetPartitionRange(partId).startKey) == Some(partId)
  {
    var s := index.GetPartitionRange(partId).startKey;
    var r := index.GetPartitionId(s);
    var k :| k in index.startKeyToPartId && 0 <= k <= s && index.startKeyToPartId[k] == r.value &&
             forall j :: j in index.startKeyToPartId && k < j <= s ==> false;
    assert k == s;
  }

  /** Two vector ids with no start key between them, counting the upper
      one, are routed to the same partition. */
  lemma SamePartitionBetweenStarts(index: VectorIndex, a: int, b: int)
    requires a <= b
    requires forall k :: k in index.startKeyToPartId && a < k <= b ==> false
    ensures index.GetPartitionId(a) == index.GetPartitionId(b)
  {
    SameFloorBetween(index.startKeyToPartId, a, b);
  }

  lemma {:induction false} SameFloorBetween(m: map<int, int>, a: int, b: int)
    requires a <= b
    requires forall k :: k in m && a < k <= b ==> false
    ensures FloorKey(m, a) == FloorKey(m, b)
    decreases b - a
  {
    if a < b {
      assert b !in m;
      SameFloorBetween(m, a, b - 1);
    }
  }

  /** Each vector id from the lowest start key up is routed to exactly one
      partition, whose range starts at or below it and which no later
      start key at or below the id overrides. */
  lemma RoutedToOwner(index: VectorIndex, vectorId: int, k: int)
    requires index.Valid() && k in index.startKeyToPartId && k <= vectorId
    requires forall j :: j in index.startKeyToPartId && k < j <= vectorId ==> false
    ensures index.GetPartitionId(vectorId) == Some(index.startKeyToPartId[k])
  {
    var r := index.GetPartitionId(vectorId);
    var k' :| k' in index.startKeyToPartId && 0 <= k' <= vectorId && index.startKeyToPartId[k'] == r.value &&
              forall j :: j in index.startKeyToPartId && k' < j <= vectorId ==> false;
    assert k' == k;
  }
}
