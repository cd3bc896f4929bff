/**
 * RegionBlockStorage: a write-behind cache of per-chunk ledgers keyed by
 * `world_cx_cz`, loaded from and saved to region_<cx>_<cz>.dat files.
 *
 * The disk is a map from file to uncompressed body. The two asynchronous
 * contexts the storage uses (one for loads, one for saves) are a queue of
 * pending tasks each, run one at a time by RunNextLoad / RunNextSave, so
 * that any interleaving with the public operations can be written down; a
 * context that no longer accepts work runs the task inline, as
 * AsyncContext's fallback does. Cache eviction is the explicit Evict step.
 */
module RegionBlockStorage {
  import opened Wrappers
  import opened JavaData
  import opened JavaText
  import opened PositionCodec
  import opened RegionLedger
  import opened RegionFormat

  /** A file `name` inside the directory for world `dir`. */
  datatype FilePath = FilePath(dir: string, name: string)

  /**
   * key(world, chunk): the world name, then the chunk coordinates, joined
   * by '_'; splitting on '_' gives the three parts back when the world name
   * has none.
   */
  function CacheKey(world: string, cx: Int32, cz: Int32): (k: string)
    ensures StartsWith(k, world + "_")
    ensures '_' !in world ==> Split(k, '_') == [world, IntToString(cx), IntToString(cz)]
  {
    var a, b := IntToString(cx), IntToString(cz);
    NumberLacks(cx, '_');
    NumberLacks(cz, '_');
    assert world + "_" + a + "_" + b == world + ['_'] + a + ['_'] + b;
    if '_' in world then world + "_" + a + "_" + b
    else SplitThree(world, a, b, '_'); world + "_" + a + "_" + b
  }

  /** The name region_<x>_<z>.dat for chunk coordinates x and z. */
  function RegionFileName(rx: Int32, rz: Int32): (n: string)
    ensures StartsWith(n, "region_") && |n| >= 11 && n[|n| - 4..] == ".dat"
  {
    "region_" + IntToString(rx) + "_" + IntToString(rz) + ".dat"
  }

  /** The first c of a' + [c] + b' is at |a'|, so no later than the first c of a + [c] + b. */
  lemma CutNoLater(a: string, b: string, a': string, b': string, c: char)
    requires c !in a' && a + [c] + b == a' + [c] + b'
    ensures |a'| <= |a|
  {
    var s := a + [c] + b;
    assert s[|a|] == c;
  }

  /** When neither a nor a' holds c, a + [c] + b == a' + [c] + b' splits the same way. */
  lemma CutAtFirst(a: string, b: string, a': string, b': string, c: char)
    requires c !in a && c !in a' && a + [c] + b == a' + [c] + b'
    ensures a == a' && b == b'
  {
    CutNoLater(a, b, a', b', c);
    CutNoLater(a', b', a, b, c);
    var s := a + [c] + b;
    assert a == s[..|a|] && a' == s[..|a'|];
    assert b == s[|a| + 1..] && b' == s[|a'| + 1..];
  }

  /** Distinct chunk coordinates get distinct file names. */
  lemma RegionFileNameInjective(rx: Int32, rz: Int32, rx': Int32, rz': Int32)
    ensures RegionFileName(rx, rz) == RegionFileName(rx', rz') <==> rx == rx' && rz == rz'
  {
    if RegionFileName(rx, rz) == RegionFileName(rx', rz') {
      var n := RegionFileName(rx, rz);
      var a, b, a', b' := IntToString(rx), IntToString(rz), IntToString(rx'), IntToString(rz');
      assert n[7..|n| - 4] == a + ['_'] + b;
      assert n[7..|n| - 4] == a' + ['_'] + b';
      NumberLacks(rx, '_');
      NumberLacks(rx', '_');
      CutAtFirst(a, b, a', b', '_');
      ParseIntOfIntToString(rx);
      ParseIntOfIntToString(rx');
      ParseIntOfIntToString(rz);
      ParseIntOfIntToString(rz');
    }
  }

  /** regionFile(world, chunk): the file loadSync reads, one per chunk of the world's directory. */
  function RegionFile(world: string, cx: Int32, cz: Int32): (f: FilePath)
    ensures f.dir == world && StartsWith(f.name, "region_")
  {
    FilePath(world, RegionFileName(cx, cz))
  }

  /** Two chunks share a region file exactly when they are the same chunk of the same world. */
  lemma RegionFileInjective(world: string, cx: Int32, cz: Int32, world': string, cx': Int32, cz': Int32)
    ensures RegionFile(world, cx, cz) == RegionFile(world', cx', cz') <==> world == world' && cx == cx' && cz == cz'
  {
    RegionFileNameInjective(cx, cz, cx', cz');
  }

  /**
   * The file saveSync writes for a key: the key split on '_', the world
   * taken from field 0 and the coordinates parsed from fields 1 and 2, in
   * that order, with the exception the first failing step throws.
   */
  function SaveTarget(key: string): (r: Result<FilePath>)
    ensures '_' !in key ==> r == Err(ArrayIndexOutOfBounds)
    ensures r.Err? ==> r.error == ArrayIndexOutOfBounds || r.error.NumberFormat?
    ensures r.Ok? ==> '_' !in r.value.dir && StartsWith(r.value.name, "region_")
  {
    var split := Split(key, '_');
    SplitLacksSeparator(key, '_');
    if |split| < 2 then Err(ArrayIndexOutOfBounds)
    else
      match ParseInt(split[1])
      case None => Err(NumberFormat(split[1]))
      case Some(rx) =>
        if |split| < 3 then Err(ArrayIndexOutOfBounds)
        else
          match ParseInt(split[2])
          case None => Err(NumberFormat(split[2]))
          case Some(rz) => Ok(FilePath(split[0], RegionFileName(rx, rz)))
  }

  /**
   * Save and load agree on the file exactly when the world name has no
   * '_': otherwise the world is cut at its first '_' and the save either
   * fails to parse or lands in another world's directory.
   */
  lemma SaveTargetOfCacheKey(world: string, cx: Int32, cz: Int32)
    ensures SaveTarget(CacheKey(world, cx, cz)) == Ok(RegionFile(world, cx, cz)) <==> '_' !in world
  {
    var a, b := IntToString(cx), IntToString(cz);
    NumberLacks(cx, '_');
    NumberLacks(cz, '_');
    assert CacheKey(world, cx, cz) == world + ['_'] + a + ['_'] + b;
    if '_' !in world {
      SplitThree(world, a, b, '_');
      ParseIntOfIntToString(cx);
      ParseIntOfIntToString(cz);
    } else {
      var split := Split(CacheKey(world, cx, cz), '_');
      SplitLacksSeparator(CacheKey(world, cx, cz), '_');
      if |split| >= 1 {
        assert '_' !in split[0];
      }
    }
  }

  /**
   * A world named `a_b` (neither part holding '_') is cut at the '_': when
   * `b` is not a number the save throws NumberFormatException and the ledger
   * is never written; when it is, chunk (cx, cz) of `a_b` is written to the
   * file of chunk (b, cx) of world `a`.
   */
  lemma SaveTargetOfUnderscoredWorld(a: string, b: string, cx: Int32, cz: Int32)
    requires '_' !in a && '_' !in b
    ensures ParseInt(b).None? ==> SaveTarget(CacheKey(a + "_" + b, cx, cz)) == Err(NumberFormat(b))
    ensures ParseInt(b).Some? ==> SaveTarget(CacheKey(a + "_" + b, cx, cz)) == Ok(RegionFile(a, ParseInt(b).value, cx))
  {
    var d, e := IntToString(cx), IntToString(cz);
    NumberLacks(cx, '_');
    NumberLacks(cz, '_');
    assert CacheKey(a + "_" + b, cx, cz) == a + ['_'] + b + ['_'] + d + ['_'] + e;
    SplitFour(a, b, d, e, '_');
    ParseIntOfIntToString(cx);
  }

  /** "my_world" is never saved; "w_7" is saved as chunk (7, cx) of world "w". */
  lemma UnderscoredWorldExamples(cx: Int32, cz: Int32)
    ensures SaveTarget(CacheKey("my_world", cx, cz)) == Err(NumberFormat("world"))
    ensures SaveTarget(CacheKey("w_7", cx, cz)) == Ok(RegionFile("w", 7, cx))
  {
    assert "my_world" == "my" + "_" + "world";
    assert ParseInt("world") == None by {
      assert !IsDigit("world"[0]);
    }
    SaveTargetOfUnderscoredWorld("my", "world", cx, cz);
    assert "w_7" == "w" + "_" + "7";
    assert IntToString(7) == "7";
    ParseIntOfIntToString(7);
    SaveTargetOfUnderscoredWorld("w", "7", cx, cz);
  }

  /** What loadSync finds for a file: a missing file is an empty, clean ledger. */
  function DiskLoad(disk: map<FilePath, seq<Byte>>, file: FilePath): (r: Loaded)
    ensures file !in disk ==> r == Loaded({}, false)
    ensures file in disk ==> r == LoadBody(disk[file])
    ensures r.dirty ==> r.blocks != {}
  {
    if file in disk then LoadBody(disk[file]) else Loaded({}, false)
  }

  function Min(a: nat, b: nat): nat {
    if a < b then a else b
  }

  /**
   * How the write of one save ends: the whole body reaches the file; the
   * FileOutputStream fails to open (a missing directory, a read-only file)
   * and the file keeps what it held; or the stream fails after `n` bytes of
   * the body reached the file.
   */
  datatype WriteOutcome = Completes | OpenFails | FailsAfter(n: nat)
  {
    /** The save throws, so saveSync skips clearDirty. */
    predicate Throws() {
      !Completes?
    }
  }

  /** The bytes a save that opened its file leaves there: the whole body, or the prefix written before the failure. */
  function Written(order: seq<Long>, outcome: WriteOutcome): (w: seq<Byte>)
    requires !outcome.OpenFails?
    ensures |w| <= |EncodeBody(order)| && w == EncodeBody(order)[..|w|]
    ensures outcome.Completes? ==> w == EncodeBody(order)
  {
    if outcome.FailsAfter? then EncodeBody(order)[..Min(outcome.n, |EncodeBody(order)|)] else EncodeBody(order)
  }

  /**
   * The effect of saveSync(key, data) on a ledger holding `blocks` with the
   * flag `wasDirty`, the set being iterated in `order`: nothing for a clean
   * ledger or a key whose target throws; otherwise the flag is cleared only
   * when the write completes, a file that fails to open keeps its bytes,
   * and a stream that fails after `n` bytes leaves that prefix of the body.
   */
  ghost predicate SaveEffect(target: Result<FilePath>, blocks: set<Long>, wasDirty: bool, outcome: WriteOutcome,
                             order: seq<Long>, disk0: map<FilePath, seq<Byte>>, disk1: map<FilePath, seq<Byte>>,
                             nowDirty: bool)
    ensures SaveEffect(target, blocks, wasDirty, outcome, order, disk0, disk1, nowDirty) ==>
      (nowDirty ==> wasDirty) && disk0.Keys <= disk1.Keys &&
      (forall f :: f in disk0 && (target.Err? || f != target.value) ==> f in disk1 && disk1[f] == disk0[f])
  {
    if !wasDirty || target.Err? then disk1 == disk0 && nowDirty == wasDirty
    else if outcome.OpenFails? then disk1 == disk0 && nowDirty
    else Enumerates(order, blocks) && disk1 == disk0[target.value := Written(order, outcome)] && nowDirty == outcome.Throws()
  }

  /** A complete save is read back by loadSync as the same set, clean. */
  lemma SavedLedgerLoadsBack(target: Result<FilePath>, blocks: set<Long>, order: seq<Long>,
                             disk0: map<FilePath, seq<Byte>>, disk1: map<FilePath, seq<Byte>>, nowDirty: bool)
    requires SaveEffect(target, blocks, true, Completes, order, disk0, disk1, nowDirty)
    requires target.Ok? && |blocks| < TWO_31
    ensures !nowDirty && DiskLoad(disk1, target.value) == Loaded(blocks, false)
  {
    LoadOfEncoding(order, blocks);
  }

  /**
   * A save that throws keeps the ledger dirty; a file that fails to open
   * keeps its old bytes, stale keys included; a write cut short leaves a
   * file that loads a subset of the set.
   */
  lemma FailedSaveKeepsDirty(target: Result<FilePath>, blocks: set<Long>, outcome: WriteOutcome, order: seq<Long>,
                             disk0: map<FilePath, seq<Byte>>, disk1: map<FilePath, seq<Byte>>, nowDirty: bool)
    requires SaveEffect(target, blocks, true, outcome, order, disk0, disk1, nowDirty)
    requires target.Err? || outcome.Throws()
    ensures nowDirty
    ensures target.Err? || outcome.OpenFails? ==> disk1 == disk0
    ensures target.Ok? && outcome.FailsAfter? && |blocks| < TWO_31 ==> DiskLoad(disk1, target.value).blocks <= blocks
  {
    if target.Ok? && outcome.FailsAfter? && |blocks| < TWO_31 {
      var w := Written(order, outcome);
      if |w| == |EncodeBody(order)| {
        assert w == EncodeBody(order);
        LoadOfEncoding(order, blocks);
      } else {
        TruncatedLoad(order, blocks, |w|);
      }
    }
  }

  /**
   * For a world without '_', a complete save of a chunk's ledger is exactly
   * what the next load of that chunk reads.
   */
  lemma SaveThenLoad(world: string, cx: Int32, cz: Int32, blocks: set<Long>, order: seq<Long>,
                     disk0: map<FilePath, seq<Byte>>, disk1: map<FilePath, seq<Byte>>, nowDirty: bool)
    requires '_' !in world && |blocks| < TWO_31
    requires SaveEffect(SaveTarget(CacheKey(world, cx, cz)), blocks, true, Completes, order, disk0, disk1, nowDirty)
    ensures DiskLoad(disk1, RegionFile(world, cx, cz)) == Loaded(blocks, false)
  {
    SaveTargetOfCacheKey(world, cx, cz);
    SavedLedgerLoadsBack(SaveTarget(CacheKey(world, cx, cz)), blocks, order, disk0, disk1, nowDirty);
  }

  /** A pending loadAsync: load the chunk's file and merge it into `target`. */
  datatype LoadTask = LoadTask(world: string, cx: Int32, cz: Int32, target: RegionData)

  /** A pending saveAsync of an evicted ledger. */
  datatype SaveTask = SaveTask(key: string, data: RegionData)

  class Storage {
    var cache: map<string, RegionData>
    var disk: map<FilePath, seq<Byte>>
    /** The load context ("ZUtils-RegionBlock-IO") still queues work. */
    var ioRunning: bool
    /** The save context ("ZUtils-RegionBlock") still queues work. */
    var saveRunning: bool
    var loads: seq<LoadTask>
    var saves: seq<SaveTask>

    /** Each cached ledger is its own instance. */
    ghost predicate Valid()
      reads this`cache
    {
      forall k1, k2 :: k1 in cache && k2 in cache && k1 != k2 ==> cache[k1] != cache[k2]
    }

    /** The ledger cached under `key`, if any, as a frame. */
    function LedgerAt(key: string): set<RegionData>
      reads this`cache
    {
      if key in cache then {cache[key]} else {}
    }

    function CachedLedgers(): set<RegionData>
      reads this`cache
    {
      set k | k in cache :: cache[k]
    }

    /** Every ledger the storage can still touch. */
    function Ledgers(): set<RegionData>
      reads this
    {
      (set k | k in cache :: cache[k]) + (set i | 0 <= i < |loads| :: loads[i].target)
        + (set i | 0 <= i < |saves| :: saves[i].data)
    }

    /** The contents a cache miss for the chunk installs. */
    function MissContents(world: string, cx: Int32, cz: Int32): set<Long>
      reads this
    {
      if ioRunning then {} else DiskLoad(disk, RegionFile(world, cx, cz)).blocks
    }

    constructor (initialDisk: map<FilePath, seq<Byte>>)
      ensures cache == map[] && disk == initialDisk && loads == [] && saves == []
      ensures ioRunning && saveRunning && Valid()
    {
      cache := map[];
      disk := initialDisk;
      ioRunning := true;
      saveRunning := true;
      loads := [];
      saves := [];
    }

    /** The load context was shut down: later loads run inline. */
    method StopLoadContext()
      modifies this`ioRunning
      ensures !ioRunning
    {
      ioRunning := false;
    }

    /** The save context was shut down: later saves run inline. */
    method StopSaveContext()
      modifies this`saveRunning
      ensures !saveRunning
    {
      saveRunning := false;
    }

    /** loadSync: the chunk's file read into a fresh ledger. */
    method LoadSync(world: string, cx: Int32, cz: Int32) returns (data: RegionData)
      ensures fresh(data)
      ensures data.blocks == DiskLoad(disk, RegionFile(world, cx, cz)).blocks
      ensures data.dirty == DiskLoad(disk, RegionFile(world, cx, cz)).dirty
    {
      var file := RegionFile(world, cx, cz);
      if file !in disk {
        data := new RegionData();
        return;
      }
      data := ReadBody(disk[file]);
    }

    /**
     * getRegion: a hit returns the cached instance untouched. A miss caches
     * a fresh ledger and loads into it: queued while the load context runs
     * (the caller gets it empty and clean), inline otherwise, in which case
     * the merge leaves it dirty whenever the file held a key.
     */
    method GetRegion(world: string, cx: Int32, cz: Int32) returns (d: RegionData)
      requires Valid()
      modifies this`cache, this`loads
      ensures Valid()
      ensures CacheKey(world, cx, cz) in cache && cache[CacheKey(world, cx, cz)] == d
      ensures CacheKey(world, cx, cz) in old(cache) ==>
        d == old(cache[CacheKey(world, cx, cz)]) && cache == old(cache) && loads == old(loads)
      ensures CacheKey(world, cx, cz) !in old(cache) ==>
        fresh(d) && cache == old(cache)[CacheKey(world, cx, cz) := d] &&
        d.blocks == MissContents(world, cx, cz) && d.dirty == (d.blocks != {})
      ensures CacheKey(world, cx, cz) !in old(cache) && ioRunning ==>
        loads == old(loads) + [LoadTask(world, cx, cz, d)]
      ensures CacheKey(world, cx, cz) !in old(cache) && !ioRunning ==> loads == old(loads)
    {
      var key := CacheKey(world, cx, cz);
      if key in cache {
        d := cache[key];
        return;
      }
      d := new RegionData();
      if ioRunning {
        loads := loads + [LoadTask(world, cx, cz, d)];
      } else {
        var loaded := LoadSync(world, cx, cz);
        d.MergeFrom(loaded);
      }
      cache := cache[key := d];
    }

    /** markPlaced: adds the packed position to the chunk's ledger. */
    method MarkPlaced(world: string, cx: Int32, cz: Int32, x: Int32, y: Int32, z: Int32)
      requires Valid()
      modifies this`cache, this`loads, LedgerAt(CacheKey(world, cx, cz))
      ensures Valid() && CacheKey(world, cx, cz) in cache
      ensures CacheKey(world, cx, cz) in old(cache) ==>
        cache == old(cache) && loads == old(loads) &&
        cache[CacheKey(world, cx, cz)].blocks == old(cache[CacheKey(world, cx, cz)].blocks) + {Pack(x, y, z)} &&
        cache[CacheKey(world, cx, cz)].dirty ==
          (old(cache[CacheKey(world, cx, cz)].dirty) || Pack(x, y, z) !in old(cache[CacheKey(world, cx, cz)].blocks))
      ensures CacheKey(world, cx, cz) !in old(cache) ==>
        fresh(cache[CacheKey(world, cx, cz)]) &&
        cache == old(cache)[CacheKey(world, cx, cz) := cache[CacheKey(world, cx, cz)]] &&
        cache[CacheKey(world, cx, cz)].blocks == MissContents(world, cx, cz) + {Pack(x, y, z)} &&
        cache[CacheKey(world, cx, cz)].dirty
      ensures CacheKey(world, cx, cz) !in old(cache) && ioRunning ==>
        loads == old(loads) + [LoadTask(world, cx, cz, cache[CacheKey(world, cx, cz)])]
      ensures CacheKey(world, cx, cz) !in old(cache) && !ioRunning ==> loads == old(loads)
    {
      var d := GetRegion(world, cx, cz);
      d.Add(Pack(x, y, z));
    }

    /** removePlaced: true iff the ledger held the position, which it no longer does. */
    method RemovePlaced(world: string, cx: Int32, cz: Int32, x: Int32, y: Int32, z: Int32) returns (removed: bool)
      requires Valid()
      modifies this`cache, this`loads, LedgerAt(CacheKey(world, cx, cz))
      ensures Valid() && CacheKey(world, cx, cz) in cache
      ensures Pack(x, y, z) !in cache[CacheKey(world, cx, cz)].blocks
      ensures CacheKey(world, cx, cz) in old(cache) ==>
        cache == old(cache) && loads == old(loads) &&
        removed == (Pack(x, y, z) in old(cache[CacheKey(world, cx, cz)].blocks)) &&
        cache[CacheKey(world, cx, cz)].blocks == old(cache[CacheKey(world, cx, cz)].blocks) - {Pack(x, y, z)} &&
        cache[CacheKey(world, cx, cz)].dirty == (old(cache[CacheKey(world, cx, cz)].dirty) || removed)
      ensures CacheKey(world, cx, cz) !in old(cache) ==>
        fresh(cache[CacheKey(world, cx, cz)]) &&
        cache == old(cache)[CacheKey(world, cx, cz) := cache[CacheKey(world, cx, cz)]] &&
        removed == (Pack(x, y, z) in MissContents(world, cx, cz)) &&
        cache[CacheKey(world, cx, cz)].blocks == MissContents(world, cx, cz) - {Pack(x, y, z)} &&
        cache[CacheKey(world, cx, cz)].dirty == (MissContents(world, cx, cz) != {})
      ensures CacheKey(world, cx, cz) !in old(cache) && ioRunning ==>
        loads == old(loads) + [LoadTask(world, cx, cz, cache[CacheKey(world, cx, cz)])]
      ensures CacheKey(world, cx, cz) !in old(cache) && !ioRunning ==> loads == old(loads)
    {
      var d := GetRegion(world, cx, cz);
      removed := d.Remove(Pack(x, y, z));
    }

    /** isPlaced: membership in the chunk's ledger, after getRegion. */
    method IsPlaced(world: string, cx: Int32, cz: Int32, x: Int32, y: Int32, z: Int32) returns (present: bool)
      requires Valid()
      modifies this`cache, this`loads
      ensures Valid() && CacheKey(world, cx, cz) in cache
      ensures present == (Pack(x, y, z) in cache[CacheKey(world, cx, cz)].blocks)
      ensures CacheKey(world, cx, cz) in old(cache) ==>
        cache == old(cache) && loads == old(loads) &&
        present == (Pack(x, y, z) in old(cache[CacheKey(world, cx, cz)].blocks))
      ensures CacheKey(world, cx, cz) !in old(cache) ==>
        fresh(cache[CacheKey(world, cx, cz)]) &&
        cache == old(cache)[CacheKey(world, cx, cz) := cache[CacheKey(world, cx, cz)]] &&
        present == (Pack(x, y, z) in MissContents(world, cx, cz)) &&
        cache[CacheKey(world, cx, cz)].blocks == MissContents(world, cx, cz) &&
        cache[CacheKey(world, cx, cz)].dirty == (MissContents(world, cx, cz) != {})
      ensures CacheKey(world, cx, cz) !in old(cache) && ioRunning ==>
        !present && loads == old(loads) + [LoadTask(world, cx, cz, cache[CacheKey(world, cx, cz)])]
      ensures CacheKey(world, cx, cz) !in old(cache) && !ioRunning ==> loads == old(loads)
    {
      var d := GetRegion(world, cx, cz);
      present := d.Contains(Pack(x, y, z));
    }

    /** The next queued load runs: the file as it is now is merged into its target. */
    method RunNextLoad()
      requires loads != []
      modifies this`loads, loads[0].target
      ensures loads == old(loads[1..])
      ensures old(loads[0].target).blocks ==
        old(loads[0].target.blocks) + DiskLoad(disk, RegionFile(old(loads[0].world), old(loads[0].cx), old(loads[0].cz))).blocks
      ensures old(loads[0].target).dirty ==
        (old(loads[0].target.dirty) ||
         !(DiskLoad(disk, RegionFile(old(loads[0].world), old(loads[0].cx), old(loads[0].cz))).blocks <= old(loads[0].target.blocks)))
    {
      var task := loads[0];
      loads := loads[1..];
      var loaded := LoadSync(task.world, task.cx, task.cz);
      task.target.MergeFrom(loaded);
    }

    /**
     * saveSync(key, data), the write ending as `fault` says; `order` is the
     * order in which the set was written.
     */
    method SaveSync(key: string, data: RegionData, fault: WriteOutcome) returns (ghost order: seq<Long>)
      modifies this`disk, data`dirty
      ensures SaveEffect(SaveTarget(key), data.blocks, old(data.dirty), fault, order, old(disk), disk, data.dirty)
      ensures data.dirty <==> old(data.dirty) && (SaveTarget(key).Err? || fault.Throws())
    {
      order := [];
      if !data.dirty {
        return;
      }
      var target := SaveTarget(key);
      if target.Err? {
        return;
      }
      if fault.OpenFails? {
        return;
      }
      var body;
      body, order := WriteBody(data.blocks);
      if fault.Completes? {
        disk := disk[target.value := body];
        data.ClearDirty();
      } else {
        disk := disk[target.value := body[..Min(fault.n, |body|)]];
      }
    }

    /**
     * A ledger leaves the cache; the removal listener saves it only when it
     * is dirty: queued while the save context runs, inline otherwise.
     */
    method Evict(key: string, fault: WriteOutcome) returns (ghost order: seq<Long>)
      requires Valid() && key in cache
      modifies this`cache, this`saves, this`disk, LedgerAt(key)`dirty
      ensures Valid() && cache == old(cache) - {key}
      ensures !old(cache[key].dirty) || saveRunning ==> disk == old(disk) && old(cache[key]).dirty == old(cache[key].dirty)
      ensures saves == old(saves) + (if old(cache[key].dirty) && saveRunning then [SaveTask(key, old(cache[key]))] else [])
      ensures old(cache[key].dirty) && !saveRunning ==>
        SaveEffect(SaveTarget(key), old(cache[key]).blocks, old(cache[key].dirty), fault, order, old(disk), disk,
                   old(cache[key]).dirty)
    {
      order := [];
      var data := cache[key];
      cache := cache - {key};
      if data.dirty {
        if saveRunning {
          saves := saves + [SaveTask(key, data)];
        } else {
          order := SaveSync(key, data, fault);
        }
      }
    }

    /** The next queued save runs. */
    method RunNextSave(fault: WriteOutcome) returns (ghost order: seq<Long>)
      requires saves != []
      modifies this`saves, this`disk, saves[0].data`dirty
      ensures saves == old(saves[1..])
      ensures SaveEffect(SaveTarget(old(saves[0].key)), old(saves[0].data.blocks), old(saves[0].data.dirty), fault,
                         order, old(disk), disk, old(saves[0].data).dirty)
    {
      var task := saves[0];
      saves := saves[1..];
      order := SaveSync(task.key, task.data, fault);
    }

    /**
     * The dirty flags while shutdown runs: a ledger still to be saved keeps
     * the flag it had (`wasDirty`), a saved one stays dirty only when it was
     * and its save threw.
     */
    ghost predicate SavedExcept(wasDirty: map<string, bool>, todo: set<string>, faults: string -> WriteOutcome)
      reads this`cache, CachedLedgers()
    {
      forall k :: k in cache && k in wasDirty ==>
        cache[k].dirty == (wasDirty[k] && (k in todo || SaveTarget(k).Err? || faults(k).Throws()))
    }

    /** One saveSync of shutdown, for the ledger cached under k. */
    method SaveCached(k: string, data: RegionData, faults: string -> WriteOutcome, ghost wasDirty: map<string, bool>,
                      ghost todo: set<string>, ghost disk0: map<FilePath, seq<Byte>>, ghost done: set<string>,
                      ghost blocks0: map<string, set<Long>>)
      requires Valid() && k in cache && data == cache[k] && k in todo && k in wasDirty && data.dirty == wasDirty[k]
      requires SavedExcept(wasDirty, todo, faults)
      requires k in blocks0 && data.blocks == blocks0[k] && k !in done
      requires FlushedAll(SaveTarget, disk0, disk, done, blocks0, faults)
      modifies this`disk, data`dirty
      ensures SavedExcept(wasDirty, todo - {k}, faults)
      ensures FlushedAll(SaveTarget, disk0, disk, if wasDirty[k] then done + {k} else done, blocks0, faults)
    {
      ghost var disk1 := disk;
      ghost var order := SaveSync(k, data, faults(k));
      if wasDirty[k] {
        FlushStep(SaveTarget, disk0, disk1, disk, done, k, blocks0, faults, order);
      }
    }

    /** The keys whose cached ledger is dirty: the ones shutdown writes out. */
    function DirtyKeys(): set<string>
      reads this`cache, CachedLedgers()
    {
      set k | k in cache && cache[k].dirty
    }

    /** The set each cached ledger holds. */
    function Blocks(): (b: map<string, set<Long>>)
      reads this`cache, CachedLedgers()
      ensures b.Keys == cache.Keys
    {
      map k | k in cache :: cache[k].blocks
    }

    /**
     * shutdown: saveSync on every cached ledger, in the map's iteration
     * order, the write for key k ending as `faults(k)` says. The disk is
     * what flushing the dirty ledgers leaves (FlushedAll), and afterwards a
     * ledger is dirty exactly when it was dirty and its save threw.
     */
    method Shutdown(faults: string -> WriteOutcome)
      requires Valid()
      modifies this`disk, CachedLedgers()`dirty
      ensures Valid() && cache == old(cache)
      ensures forall k :: k in cache ==> cache[k].blocks == old(cache[k].blocks)
      ensures forall k :: k in cache ==>
        (cache[k].dirty <==> old(cache[k].dirty) && (SaveTarget(k).Err? || faults(k).Throws()))
      ensures FlushedAll(SaveTarget, old(disk), disk, old(DirtyKeys()), old(Blocks()), faults)
    {
      ghost var dirty0 := DirtyKeys();
      ghost var blocks0 := Blocks();
      ghost var wasDirty := map k | k in cache :: cache[k].dirty;
      ghost var done: set<string> := {};
      var todo := cache.Keys;
      FlushNone(SaveTarget, disk, blocks0, faults);
      while todo != {}
        invariant todo <= cache.Keys
        invariant SavedExcept(wasDirty, todo, faults)
        invariant forall k :: k in todo ==> cache[k].dirty == wasDirty[k]
        invariant done <= dirty0 && forall k :: k in dirty0 ==> (k in done <==> k !in todo)
        invariant FlushedAll(SaveTarget, old(disk), disk, done, blocks0, faults)
        decreases |todo|
      {
        var k :| k in todo;
        SaveCached(k, cache[k], faults, wasDirty, todo, old(disk), done, blocks0);
        todo := todo - {k};
        if k in dirty0 {
          done := done + {k};
        }
      }
      assert done == dirty0;
    }
  }

  /** Where a ledger's save writes, by key: SaveTarget, or another map for the lemmas below. */
  type Targeting = string -> Result<FilePath>

  /** The files that saving the ledgers under `keys` can write. */
  function Targets(target: Targeting, keys: set<string>): (ts: set<FilePath>)
    ensures forall k :: k in keys && target(k).Ok? ==> target(k).value in ts
  {
    set k | k in keys && target(k).Ok? :: target(k).value
  }

  /** Among `keys`, k is the only one whose save writes its file. */
  ghost predicate SoleTarget(target: Targeting, k: string, keys: set<string>) {
    target(k).Ok? && forall k2 :: k2 in keys && k2 != k ==> target(k2) != target(k)
  }

  /**
   * File p after one save of `blocks` from `disk0`: unchanged when the file
   * failed to open, otherwise the body of some enumeration, whole or cut at
   * the failure.
   */
  ghost predicate Flushed(disk0: map<FilePath, seq<Byte>>, disk: map<FilePath, seq<Byte>>, p: FilePath,
                          blocks: set<Long>, outcome: WriteOutcome) {
    if outcome.OpenFails? then (p in disk <==> p in disk0) && (p in disk ==> disk[p] == disk0[p])
    else p in disk && exists order :: Enumerates(order, blocks) && disk[p] == Written(order, outcome)
  }

  /**
   * The disk after flushing the ledgers under `keys` from `disk0`: a file
   * that is none of their targets keeps its bytes, and the file of a key
   * that no other key targets is as that key's save left it.
   */
  ghost predicate FlushedAll(target: Targeting, disk0: map<FilePath, seq<Byte>>, disk: map<FilePath, seq<Byte>>,
                             keys: set<string>, blocks: map<string, set<Long>>, faults: string -> WriteOutcome) {
    (forall p :: p !in Targets(target, keys) ==> (p in disk <==> p in disk0) && (p in disk ==> disk[p] == disk0[p])) &&
    (forall k :: k in keys && k in blocks && SoleTarget(target, k, keys) ==>
      Flushed(disk0, disk, target(k).value, blocks[k], faults(k)))
  }

  /** Nothing flushed yet: the disk as it was. */
  lemma FlushNone(target: Targeting, disk: map<FilePath, seq<Byte>>, blocks: map<string, set<Long>>,
                  faults: string -> WriteOutcome)
    ensures FlushedAll(target, disk, disk, {}, blocks, faults)
  {
  }

  /** One more dirty ledger saved keeps FlushedAll. */
  lemma FlushStep(target: Targeting, disk0: map<FilePath, seq<Byte>>, disk: map<FilePath, seq<Byte>>,
                  disk': map<FilePath, seq<Byte>>, keys: set<string>, k: string, blocks: map<string, set<Long>>,
                  faults: string -> WriteOutcome, order: seq<Long>)
    requires FlushedAll(target, disk0, disk, keys, blocks, faults) && k in blocks && k !in keys
    requires target(k).Err? || faults(k).OpenFails? ==> disk' == disk
    requires target(k).Ok? && !faults(k).OpenFails? ==>
      Enumerates(order, blocks[k]) && disk' == disk[target(k).value := Written(order, faults(k))]
    ensures FlushedAll(target, disk0, disk', keys + {k}, blocks, faults)
  {
    var keys' := keys + {k};
    if target(k).Ok? {
      var f := target(k).value;
      assert Targets(target, keys') == Targets(target, keys) + {f};
      if SoleTarget(target, k, keys') {
        assert f !in Targets(target, keys);
        assert Flushed(disk0, disk', f, blocks[k], faults(k));
      }
      forall k2 | k2 in keys' && k2 in blocks && SoleTarget(target, k2, keys') && k2 != k
        ensures Flushed(disk0, disk', target(k2).value, blocks[k2], faults(k2))
      {
        assert SoleTarget(target, k2, keys);
        assert target(k2).value != f;
      }
    } else {
      assert Targets(target, keys') == Targets(target, keys);
      forall k2 | k2 in keys' && k2 in blocks && SoleTarget(target, k2, keys')
        ensures Flushed(disk0, disk', target(k2).value, blocks[k2], faults(k2))
      {
        assert SoleTarget(target, k2, keys);
      }
    }
  }

  /** A file flushed by a completed write loads back as the ledger's set, clean. */
  lemma FlushedLoadsBack(disk0: map<FilePath, seq<Byte>>, disk: map<FilePath, seq<Byte>>, p: FilePath, blocks: set<Long>)
    requires Flushed(disk0, disk, p, blocks, Completes) && |blocks| < TWO_31
    ensures DiskLoad(disk, p) == Loaded(blocks, false)
  {
    var order :| Enumerates(order, blocks) && disk[p] == Written(order, Completes);
    LoadOfEncoding(order, blocks);
  }

  /** A file that failed to open reads as it did before the flush, stale keys and all. */
  lemma FlushedOpenFailsKeeps(disk0: map<FilePath, seq<Byte>>, disk: map<FilePath, seq<Byte>>, p: FilePath, blocks: set<Long>)
    requires Flushed(disk0, disk, p, blocks, OpenFails)
    ensures DiskLoad(disk, p) == DiskLoad(disk0, p)
  {
  }

  /**
   * The stale-merge race: with a position on disk and its load still
   * queued, isPlaced reports it absent and removePlaced finds nothing to
   * remove, yet once the load merges the position is placed again.
   */
  method StaleMergeRace(world: string, cx: Int32, cz: Int32, x: Int32, y: Int32, z: Int32)
    returns (before: bool, removed: bool, after: bool)
    ensures !before && !removed && after
  {
    var pos := Pack(x, y, z);
    LoadOfEncoding([pos], {pos});
    var s := new Storage(map[RegionFile(world, cx, cz) := EncodeBody([pos])]);
    before := s.IsPlaced(world, cx, cz, x, y, z);
    removed := s.RemovePlaced(world, cx, cz, x, y, z);
    s.RunNextLoad();
    after := s.IsPlaced(world, cx, cz, x, y, z);
  }

  /**
   * A removal lost to a file that fails to open: the ledger is evicted
   * dirty while the save context is stopped, its inline save throws
   * before touching the file, and the next load of the chunk brings the
   * removed position back.
   */
  method RemovalLostOnOpenFailure(world: string, cx: Int32, cz: Int32, x: Int32, y: Int32, z: Int32)
    returns (removed: bool, after: bool)
    ensures removed && after
  {
    var s := LoadedWithSavesStopped(world, cx, cz, x, y, z);
    removed := s.RemovePlaced(world, cx, cz, x, y, z);
    after := EvictThenReload(s, world, cx, cz, x, y, z);
  }

  /** The first half of RemovalLostOnOpenFailure: the chunk's file holds the position and its load has merged. */
  method LoadedWithSavesStopped(world: string, cx: Int32, cz: Int32, x: Int32, y: Int32, z: Int32) returns (s: Storage)
    ensures fresh(s) && s.Valid() && s.cache.Keys == {CacheKey(world, cx, cz)} && fresh(s.cache[CacheKey(world, cx, cz)])
    ensures Pack(x, y, z) in s.cache[CacheKey(world, cx, cz)].blocks
    ensures !s.saveRunning && s.ioRunning && s.loads == []
    ensures DiskLoad(s.disk, RegionFile(world, cx, cz)).blocks == {Pack(x, y, z)}
  {
    var pos := Pack(x, y, z);
    LoadOfEncoding([pos], {pos});
    s := new Storage(map[RegionFile(world, cx, cz) := EncodeBody([pos])]);
    s.StopSaveContext();
    var d := s.GetRegion(world, cx, cz);
    assert s.loads == [LoadTask(world, cx, cz, d)];
    s.RunNextLoad();
  }

  /** The second half of RemovalLostOnOpenFailure: the dirty ledger leaves, its save fails to open, the chunk reloads. */
  method EvictThenReload(s: Storage, world: string, cx: Int32, cz: Int32, x: Int32, y: Int32, z: Int32)
    returns (after: bool)
    requires s.Valid() && CacheKey(world, cx, cz) in s.cache && s.cache[CacheKey(world, cx, cz)].dirty
    requires !s.saveRunning && s.ioRunning && s.loads == []
    requires DiskLoad(s.disk, RegionFile(world, cx, cz)).blocks == {Pack(x, y, z)}
    modifies s, s.cache[CacheKey(world, cx, cz)]
    ensures after
  {
    var key := CacheKey(world, cx, cz);
    ghost var disk0 := s.disk;
    ghost var order := s.Evict(key, OpenFails);
    assert s.disk == disk0 && key !in s.cache && s.loads == [];
    after := ReloadFinds(s, world, cx, cz, x, y, z);
  }

  /** A chunk missing from the cache, reloaded: isPlaced sees every position its file holds. */
  method ReloadFinds(s: Storage, world: string, cx: Int32, cz: Int32, x: Int32, y: Int32, z: Int32)
    returns (after: bool)
    requires s.Valid() && CacheKey(world, cx, cz) !in s.cache && s.ioRunning && s.loads == []
    requires Pack(x, y, z) in DiskLoad(s.disk, RegionFile(world, cx, cz)).blocks
    modifies s
    ensures after
  {
    var d := s.GetRegion(world, cx, cz);
    assert s.loads == [LoadTask(world, cx, cz, d)];
    s.RunNextLoad();
    assert Pack(x, y, z) in d.blocks && s.cache[CacheKey(world, cx, cz)] == d;
    after := s.IsPlaced(world, cx, cz, x, y, z);
  }
}
