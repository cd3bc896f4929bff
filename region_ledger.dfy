/**
 * RegionBlockStorage.RegionData: one chunk's ledger of player-placed block
 * keys and the flag that says it changed since it was last saved.
 */
module RegionLedger {
  import opened JavaData

  class RegionData {
    var blocks: set<Long>
    var dirty: bool

    /** A new ledger is empty and clean. */
    constructor ()
      ensures blocks == {} && !dirty
    {
      blocks := {};
      dirty := false;
    }

    /** Inserts the key; the ledger becomes dirty only when the key is new. */
    method Add(pos: Long)
      modifies this
      ensures blocks == old(blocks) + {pos}
      ensures dirty == (old(dirty) || pos !in old(blocks))
    {
      var added := pos !in blocks;
      blocks := blocks + {pos};
      if added {
        dirty := true;
      }
    }

    /** Removes the key, reporting whether it was there; dirty only then. */
    method Remove(pos: Long) returns (removed: bool)
      modifies this
      ensures removed == (pos in old(blocks))
      ensures blocks == old(blocks) - {pos}
      ensures dirty == (old(dirty) || removed)
    {
      removed := pos in blocks;
      blocks := blocks - {pos};
      if removed {
        dirty := true;
      }
    }

    /** Membership; changes neither the set nor the flag. */
    method Contains(pos: Long) returns (present: bool)
      ensures present == (pos in blocks)
    {
      present := pos in blocks;
    }

    /**
     * Set union with another ledger's keys; dirty becomes set exactly when
     * the union added a key, and an existing dirty flag is never cleared.
     */
    method MergeFrom(other: RegionData)
      modifies this
      ensures blocks == old(blocks) + old(other.blocks)
      ensures dirty == (old(dirty) || !(old(other.blocks) <= old(blocks)))
    {
      var changed := !(other.blocks <= blocks);
      blocks := blocks + other.blocks;
      if changed {
        dirty := true;
      }
    }

    method IsDirty() returns (d: bool)
      ensures d == dirty
    {
      d := dirty;
    }

    /** Used by the persistence path after a complete write. */
    method ClearDirty()
      modifies this`dirty
      ensures !dirty
    {
      dirty := false;
    }
  }
}
