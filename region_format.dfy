/**
 * The uncompressed body of a region_<cx>_<cz>.dat file: a big-endian int32
 * count followed by that many big-endian int64 block keys. The loop that
 * reads a body into a fresh ledger (loadSync) and the loop that writes a
 * ledger's set (saveSync) are proved against the pure LoadBody / EncodeBody.
 */
module RegionFormat {
  import opened JavaData
  import opened RegionLedger

  /** What loadSync hands back: the keys read and the ledger's dirty flag. */
  datatype Loaded = Loaded(blocks: set<Long>, dirty: bool)

  /** Whole int64 entries present after the int32 count. */
  function Available(body: seq<Byte>): (n: nat)
    requires |body| >= 4
    ensures 8 * n <= |body| - 4 < 8 * n + 8
  {
    (|body| - 4) / 8
  }

  /** The i-th key of the body. */
  function EntryAt(body: seq<Byte>, i: nat): Long
    requires |body| >= 4 && i < Available(body)
  {
    ReadLong(body[4 + 8 * i..4 + 8 * i + 8])
  }

  /** The set of the first n keys. */
  function EntriesRead(body: seq<Byte>, n: nat): set<Long>
    requires |body| >= 4 && n <= Available(body)
  {
    if n == 0 then {} else EntriesRead(body, n - 1) + {EntryAt(body, n - 1)}
  }

  /**
   * loadSync on an existing file. Fewer than four bytes: readInt fails at
   * once and the ledger stays empty and clean. A count that the body can
   * satisfy (a count of zero or less included) is read completely and the
   * ledger cleared. Otherwise the read fails at the first missing entry,
   * after the entries present were added, so the ledger is dirty exactly
   * when one was added.
   */
  function LoadBody(body: seq<Byte>): (r: Loaded)
    ensures |body| < 4 ==> r == Loaded({}, false)
    ensures |body| >= 4 && ReadInt(body[..4]) <= 0 ==> r == Loaded({}, false)
    ensures r.dirty ==> |body| >= 4 && ReadInt(body[..4]) > Available(body) && r.blocks != {}
  {
    if |body| < 4 then Loaded({}, false)
    else
      var size := ReadInt(body[..4]);
      if size <= Available(body) then
        Loaded(EntriesRead(body, if size < 0 then 0 else size), false)
      else
        Loaded(EntriesRead(body, Available(body)), Available(body) > 0)
  }

  /** writeLong of each key, in order. */
  function EncodeEntries(order: seq<Long>): (r: seq<Byte>)
    ensures |r| == 8 * |order|
  {
    if order == [] then [] else EncodeEntries(order[..|order| - 1]) + WriteLong(order[|order| - 1])
  }

  /** writeInt of the count, then every key. */
  function EncodeBody(order: seq<Long>): (r: seq<Byte>)
    ensures |r| == 4 + 8 * |order|
  {
    WriteInt(|order|) + EncodeEntries(order)
  }

  lemma {:induction false} EncodeEntriesSlice(order: seq<Long>, i: nat)
    requires i < |order|
    ensures EncodeEntries(order)[8 * i..8 * i + 8] == WriteLong(order[i])
  {
    var init := order[..|order| - 1];
    assert EncodeEntries(order) == EncodeEntries(init) + WriteLong(order[|order| - 1]);
    if i < |order| - 1 {
      EncodeEntriesSlice(init, i);
      assert init[i] == order[i];
    }
  }

  /** Writing one more key appends its eight bytes. */
  lemma EncodeEntriesSnoc(order: seq<Long>, l: Long)
    ensures EncodeEntries(order + [l]) == EncodeEntries(order) + WriteLong(l)
  {
    assert (order + [l])[..|order|] == order;
  }

  lemma EntryOfEncoding(order: seq<Long>, i: nat)
    requires i < |order|
    ensures Available(EncodeBody(order)) == |order|
    ensures EntryAt(EncodeBody(order), i) == order[i]
  {
    var body := EncodeBody(order);
    assert body[4 + 8 * i..4 + 8 * i + 8] == EncodeEntries(order)[8 * i..8 * i + 8];
    EncodeEntriesSlice(order, i);
    ReadWriteLong(order[i]);
  }

  lemma {:induction false} EntriesOfEncoding(order: seq<Long>, n: nat)
    requires n <= |order|
    ensures Available(EncodeBody(order)) == |order|
    ensures EntriesRead(EncodeBody(order), n) == set i | 0 <= i < n :: order[i]
  {
    if n > 0 {
      EntriesOfEncoding(order, n - 1);
      EntryOfEncoding(order, n - 1);
      PrefixSetSnoc(order, n);
    }
  }

  lemma PrefixSetSnoc(order: seq<Long>, n: nat)
    requires 0 < n <= |order|
    ensures (set i | 0 <= i < n :: order[i]) == (set i | 0 <= i < n - 1 :: order[i]) + {order[n - 1]}
  {
  }

  lemma CountOfEncoding(order: seq<Long>)
    requires |order| < TWO_31
    ensures ReadInt(EncodeBody(order)[..4]) == |order|
  {
    assert EncodeBody(order)[..4] == WriteInt(|order|);
    ReadWriteInt(|order|);
  }

  /**
   * Round trip: the body that saveSync writes for an enumeration of a set
   * loads back as exactly that set, with the dirty flag cleared.
   */
  lemma LoadOfEncoding(order: seq<Long>, s: set<Long>)
    requires Enumerates(order, s) && |order| < TWO_31
    ensures LoadBody(EncodeBody(order)) == Loaded(s, false)
  {
    CountOfEncoding(order);
    EntriesOfEncoding(order, |order|);
    assert (set i | 0 <= i < |order| :: order[i]) == s by {
      forall x | x in s
        ensures x in set i | 0 <= i < |order| :: order[i]
      {
        var i :| 0 <= i < |order| && order[i] == x;
      }
    }
  }

  /** The keys of a prefix of a body are keys of the whole body. */
  lemma {:induction false} EntriesOfPrefix(body: seq<Byte>, p: nat, n: nat)
    requires 4 <= p <= |body| && n <= Available(body[..p])
    ensures Available(body[..p]) <= Available(body)
    ensures EntriesRead(body[..p], n) == EntriesRead(body, n)
  {
    if n > 0 {
      EntriesOfPrefix(body, p, n - 1);
      assert body[..p][4 + 8 * (n - 1)..4 + 8 * (n - 1) + 8] == body[4 + 8 * (n - 1)..4 + 8 * (n - 1) + 8];
    }
  }

  lemma {:induction false} EntriesMonotone(body: seq<Byte>, m: nat, n: nat)
    requires |body| >= 4 && m <= n <= Available(body)
    ensures EntriesRead(body, m) <= EntriesRead(body, n)
  {
    if m < n {
      EntriesMonotone(body, m, n - 1);
    }
  }

  /**
   * A body cut short (a write that failed part-way) loads a subset of the
   * saved set, and leaves the ledger dirty exactly when at least one whole
   * entry survived.
   */
  lemma TruncatedLoad(order: seq<Long>, s: set<Long>, p: nat)
    requires Enumerates(order, s) && |order| < TWO_31
    requires p < |EncodeBody(order)|
    ensures LoadBody(EncodeBody(order)[..p]).blocks <= s
    ensures LoadBody(EncodeBody(order)[..p]).dirty <==> p >= 12
  {
    var body := EncodeBody(order);
    if p >= 4 {
      var cut := body[..p];
      assert cut[..4] == body[..4];
      CountOfEncoding(order);
      EntriesOfEncoding(order, |order|);
      var k := Available(cut);
      EntriesOfPrefix(body, p, k);
      EntriesMonotone(body, k, |order|);
      LoadOfEncoding(order, s);
    }
  }

  /**
   * The read loop of loadSync over an existing file: readInt, then up to
   * `size` readLong calls, each stopping the loop with an EOF error when
   * fewer than eight bytes remain; clearDirty only after the loop ends.
   */
  method ReadBody(body: seq<Byte>) returns (data: RegionData)
    ensures fresh(data)
    ensures data.blocks == LoadBody(body).blocks && data.dirty == LoadBody(body).dirty
  {
    data := new RegionData();
    if |body| < 4 {
      return;
    }
    var size := ReadInt(body[..4]);
    var i: nat := 0;
    while i < size
      invariant i <= Available(body) && (i == 0 || i <= size)
      invariant data.blocks == EntriesRead(body, i) && data.dirty == (i > 0)
    {
      if |body| < 4 + 8 * i + 8 {
        return;
      }
      data.Add(EntryAt(body, i));
      i := i + 1;
    }
    data.ClearDirty();
  }

  /** The keys written so far, and those still to write, split `blocks`. */
  ghost predicate WriteSplit(blocks: set<Long>, order: seq<Long>, rest: set<Long>) {
    rest <= blocks && |order| + |rest| == |blocks| &&
    (forall i :: 0 <= i < |order| ==> order[i] in blocks && order[i] !in rest) &&
    (forall x :: x in blocks ==> x in rest || x in order)
  }

  /** Writing a key still to write moves it from `rest` to the end of `order`. */
  lemma WriteSplitStep(blocks: set<Long>, order: seq<Long>, rest: set<Long>, l: Long)
    requires WriteSplit(blocks, order, rest) && l in rest
    ensures WriteSplit(blocks, order + [l], rest - {l})
  {
    assert |rest - {l}| == |rest| - 1;
  }

  /** The loop of saveSync: writeLong of every key in the set's iteration order. */
  method WriteEntries(blocks: set<Long>) returns (entries: seq<Byte>, ghost order: seq<Long>)
    ensures Enumerates(order, blocks) && entries == EncodeEntries(order)
  {
    entries := [];
    order := [];
    var rest := blocks;
    while rest != {}
      invariant WriteSplit(blocks, order, rest)
      invariant entries == EncodeEntries(order)
      decreases |rest|
    {
      var l :| l in rest;
      WriteSplitStep(blocks, order, rest, l);
      EncodeEntriesSnoc(order, l);
      entries := entries + WriteLong(l);
      order := order + [l];
      rest := rest - {l};
    }
  }

  /**
   * The write side of saveSync: writeInt(size), then the keys in the set's
   * iteration order, which the model leaves unspecified.
   */
  method WriteBody(blocks: set<Long>) returns (body: seq<Byte>, ghost order: seq<Long>)
    ensures Enumerates(order, blocks) && body == EncodeBody(order)
    ensures |blocks| < TWO_31 ==> LoadBody(body) == Loaded(blocks, false)
  {
    var entries;
    entries, order := WriteEntries(blocks);
    body := WriteInt(|blocks|) + entries;
    if |blocks| < TWO_31 {
      LoadOfEncoding(order, blocks);
    }
  }


}
