/**
 * ChunkBlockData: the stand-alone per-chunk block set with a dirty flag.
 * It mirrors RegionData except in mergeFrom, which sets the flag whenever
 * the other set is non-empty, whether or not the union grew.
 */
module ChunkBlocks {
  import opened JavaData

  class ChunkBlockData {
    var blocks: set<Long>
    var dirty: bool

    /** A new instance is empty and clean. */
    constructor ()
      ensures blocks == {} && !dirty
    {
      blocks := {};
      dirty := false;
    }

    /** True iff the key was absent; it is inserted and the flag set only then. */
    method Add(blockKey: Long) returns (added: bool)
      modifies this
      ensures added == (blockKey !in old(blocks))
      ensures blocks == old(blocks) + {blockKey}
      ensures dirty == (old(dirty) || added)
    {
      added := blockKey !in blocks;
      blocks := blocks + {blockKey};
      if added {
        dirty := true;
      }
    }

    /** True iff the key was present; it is removed and the flag set only then. */
    method Remove(blockKey: Long) returns (removed: bool)
      modifies this
      ensures removed == (blockKey in old(blocks))
      ensures blocks == old(blocks) - {blockKey}
      ensures dirty == (old(dirty) || removed)
    {
      removed := blockKey in blocks;
      blocks := blocks - {blockKey};
      if removed {
        dirty := true;
      }
    }

    /** Membership; this method does not mutate state. */
    method Contains(blockKey: Long) returns (present: bool)
      ensures present == (blockKey in blocks)
    {
      present := blockKey in blocks;
    }

    /** Resets the flag only; the set is unchanged. */
    method ClearDirty()
      modifies this`dirty
      ensures !dirty
    {
      dirty := false;
    }

    /**
     * A null or empty other is a no-op. Otherwise the sets are united and
     * the flag is set, even when every key was already present.
     */
    method MergeFrom(other: ChunkBlockData?)
      modifies this
      ensures other == null || old(other.blocks) == {} ==>
        blocks == old(blocks) && dirty == old(dirty)
      ensures other != null && old(other.blocks) != {} ==>
        blocks == old(blocks) + old(other.blocks) && dirty
    {
      if other == null || other.blocks == {} {
        return;
      }
      blocks := blocks + other.blocks;
      dirty := true;
    }
  }

  /**
   * The difference from RegionData.mergeFrom: merging a non-empty subset of
   * a clean instance's keys leaves it dirty with the same keys.
   */
  method MergeOfKnownKeysDirties(k: Long) returns (changedKeys: bool, nowDirty: bool)
    ensures !changedKeys && nowDirty
  {
    var a := new ChunkBlockData();
    var _ := a.Add(k);
    a.ClearDirty();
    var b := new ChunkBlockData();
    var _ := b.Add(k);
    var before := a.blocks;
    a.MergeFrom(b);
    changedKeys := a.blocks != before;
    nowDirty := a.dirty;
  }
}
