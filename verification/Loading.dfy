/**
 When the loader gets a file whole: the clusters it reads against those the format gives.
 */
module Loading {
  import opened Bytes
  import opened Floppy
  import opened Fat12
  import opened Chains

  /** A table and a chain of at most 16 clusters in it, as the format sees them: the table fits a
      track and lies before the data, the clusters lie on the disk. */
  predicate Placed(t: seq<Entry>, v: Volume, chain: seq<nat>) {
    && FitsLoader(v.bpb) && v.pos.fatStart % 512 == 0 && v.pos.dataStart % 512 == 0
    && |Pack(t)| <= 18 * 512 && v.pos.fatStart + |Pack(t)| <= v.pos.dataStart <= 1474560
    && 0 < |chain| <= 16 && forall k: nat {:trigger InChain(t, v, chain, k)} :: k < |chain| ==> InChain(t, v, chain, k)
  }

  predicate InChain(t: seq<Entry>, v: Volume, chain: seq<nat>, k: nat)
    requires k < |chain|
  {
    && 2 <= chain[k] < |t| && chain[k] < 0x1_0000 && ClusterStart(v.pos.dataStart, 4096, chain[k]) + 4096 <= 1474560
    && if k + 1 < |chain| then t[chain[k]] == chain[k + 1] < 0xFF8 else t[chain[k]] >= 0xFF8
  }

  /** The bytes the format gives cluster `c`. */
  function Slice(disk: Disk, v: Volume, c: nat): (r: seq<Byte>)
    requires c >= 2 && ClusterStart(v.pos.dataStart, 4096, c) + 4096 <= 1474560
    ensures |r| == 4096
  {
    var p := ClusterStart(v.pos.dataStart, 4096, c);
    disk[p..p + 4096]
  }

  /** The loader follows exactly the chain and reads exactly its clusters. */
  ghost predicate LoadsWhole(disk: Disk, stale: seq<Byte>, t: seq<Entry>, v: Volume, chain: seq<nat>)
    requires |stale| == 512 && Placed(t, v, chain)
  {
    && ChainFrom(EntriesOn(disk, stale, v), chain[0], {}) == Some(chain)
    && forall k: nat {:trigger InChain(t, v, chain, k)} :: k < |chain| ==>
         InChain(t, v, chain, k) && BlocksOn(disk, stale, v)(chain[k]) == Slice(disk, v, chain[k])
  }

  /** What a caller can check of a cluster: its entry and its data are read right. */
  predicate Readable(v: Volume, c: nat)
    requires c >= 2
  {
    EntryReadable(v.pos.fatStart, c) && (ClusterStart(v.pos.dataStart, 4096, c) / 512 + 1) % 18 != 0
  }

  /** Right or wrong, what read_cluster leaves is eight consecutive sectors: the cluster's own or,
      when its first is the last of a track, those from the last of the other side on. */
  lemma BlockIsFrom(disk: Disk, stale: seq<Byte>, v: Volume, c: nat, l: nat)
    requires |stale| == 512 && FitsLoader(v.bpb) && v.pos.dataStart % 512 == 0
    requires c >= 2 && ClusterStart(v.pos.dataStart, 4096, c) == 512 * l && l < 2880 && 0 <= StartBlock(l) <= 2880 - 8
    ensures BlockRead(disk, stale, v, c) == Some(disk[StartBlock(l) * 512..(StartBlock(l) + 8) * 512])
  {
    var p: Dword := 512 * l;
    assert p % 0x1_0000_0000 == p && p / 512 == l && p % 512 == 0;
    assert ClusterSize(v.bpb) == 4096;
    assert BlockRead(disk, stale, v, c) == ReadAt(disk, stale, Fill<Byte>(4096, 0), LbaToChs(l, 2, 18), 0, 4096);
    EightSectors(disk, stale, l);
  }

  lemma EightSectors(disk: Disk, stale: seq<Byte>, l: nat)
    requires |stale| == 512 && l < 2880 && 0 <= StartBlock(l) <= 2880 - 8
    ensures ReadAt(disk, stale, Fill<Byte>(4096, 0), LbaToChs(l, 2, 18), 0, 4096)
            == Some(disk[StartBlock(l) * 512..(StartBlock(l) + 8) * 512])
  {
    DenotesStart(l);
    FetchIsConsecutive(disk, LbaToChs(l, 2, 18), 8, StartBlock(l));
    AlignedRead(disk, stale, Fill<Byte>(4096, 0), LbaToChs(l, 2, 18));
  }

  lemma DenotesStart(l: nat)
    requires l < 2880
    ensures Denotes(LbaToChs(l, 2, 18), StartBlock(l))
  {
    StartExactIff(l);
    if (l + 1) % 18 == 0 {
      var t := l / 18;
      assert l == 18 * t + 17 && l / 36 == t / 2;
    }
  }

  // ---------- readable clusters load whole ----------

  lemma ReadableBlock(disk: Disk, stale: seq<Byte>, v: Volume, c: nat)
    requires |stale| == 512 && FitsLoader(v.bpb) && c >= 2 && ClusterStart(v.pos.dataStart, 4096, c) + 4096 <= 1474560
    requires v.pos.dataStart % 512 == 0 && (ClusterStart(v.pos.dataStart, 4096, c) / 512 + 1) % 18 != 0
    ensures BlockRead(disk, stale, v, c) == Some(Slice(disk, v, c))
  {
    var p := ClusterStart(v.pos.dataStart, 4096, c);
    AlignedStart(v.pos.dataStart, c);
    assert p % 0x1_0000_0000 == p && ClusterSize(v.bpb) == 4096;
    assert SectorCount(4096) == 8;
    ExactRequestReadsSlice(disk, stale, Fill<Byte>(4096, 0), p, 4096);
    OverlayWhole(Fill<Byte>(4096, 0), Slice(disk, v, c));
  }

  lemma ReadableCluster(disk: Disk, stale: seq<Byte>, t: seq<Entry>, v: Volume, chain: seq<nat>, k: nat)
    requires |stale| == 512 && Placed(t, v, chain) && Stores(disk, v.pos.fatStart, t) && k < |chain|
    requires InChain(t, v, chain, k) && Readable(v, chain[k])
    ensures EntriesOn(disk, stale, v)(chain[k]) == Some(t[chain[k]])
    ensures BlocksOn(disk, stale, v)(chain[k]) == Slice(disk, v, chain[k])
  {
    ReadableEntry(t, v.pos.fatStart, chain[k], disk, stale);
    ReadableBlock(disk, stale, v, chain[k]);
  }

  lemma AllReadable(disk: Disk, stale: seq<Byte>, t: seq<Entry>, v: Volume, chain: seq<nat>)
    requires |stale| == 512 && Placed(t, v, chain) && Stores(disk, v.pos.fatStart, t)
    requires forall k: nat {:trigger InChain(t, v, chain, k)} :: k < |chain| ==> InChain(t, v, chain, k) && Readable(v, chain[k])
    ensures LoadsWhole(disk, stale, t, v, chain)
  {
    var next := EntriesOn(disk, stale, v);
    forall k: nat | k < |chain|
      ensures LeadsOn(next, chain, k) && InChain(t, v, chain, k) && BlocksOn(disk, stale, v)(chain[k]) == Slice(disk, v, chain[k])
    {
      assert InChain(t, v, chain, k);
      ReadableCluster(disk, stale, t, v, chain, k);
    }
    assert InChain(t, v, chain, 0);
    FollowsIsChain(next, chain[0], chain);
    ChainExistsIff(next, chain[0], chain);
  }

  // ---------- and only they do ----------

  /** A loader that follows the chain has read the k-th entry right. */
  lemma WholeReadsEntry(disk: Disk, stale: seq<Byte>, t: seq<Entry>, v: Volume, chain: seq<nat>, k: nat)
    requires |stale| == 512 && Placed(t, v, chain) && k < |chain| && LoadsWhole(disk, stale, t, v, chain)
    ensures v.pos.fatStart + EntryOffset(chain[k]) < 0x1_0000_0000
    ensures var e := NextCluster(disk, stale, v.pos.fatStart, chain[k]);
            e.Some? && if k + 1 < |chain| then e.value == chain[k + 1] else e.value >= 0xFF8
  {
    var next := EntriesOn(disk, stale, v);
    ChainExistsIff(next, chain[0], chain);
    ChainFollows(next, chain[0], chain);
    assert LeadsOn(next, chain, k);
    WalkReads(disk, stale, v, chain[k]);
  }

  lemma EntryMustBeReadable(t: seq<Entry>, v: Volume, chain: seq<nat>, k: nat) returns (disk: Disk, stale: seq<Byte>)
    requires Placed(t, v, chain) && k < |chain| && InChain(t, v, chain, k) && !EntryReadable(v.pos.fatStart, chain[k])
    ensures |stale| == 512 && Stores(disk, v.pos.fatStart, t) && !LoadsWhole(disk, stale, t, v, chain)
  {
    disk, stale := UnreadableEntry(t, v.pos.fatStart, chain[k]);
    if LoadsWhole(disk, stale, t, v, chain) {
      WholeReadsEntry(disk, stale, t, v, chain, k);
    }
  }

  /** From the last sector of a track the first byte of a cluster is not the one at its place. */
  lemma FirstByteElsewhere(disk: Disk, stale: seq<Byte>, v: Volume, c: nat)
    requires |stale| == 512 && FitsLoader(v.bpb) && c >= 2 && v.pos.dataStart % 512 == 0
    requires ClusterStart(v.pos.dataStart, 4096, c) + 4096 <= 1474560 && (ClusterStart(v.pos.dataStart, 4096, c) / 512 + 1) % 18 == 0
    ensures var q := 512 * OtherSide(ClusterStart(v.pos.dataStart, 4096, c) / 512);
            && 0 <= q < 1474560 && q != ClusterStart(v.pos.dataStart, 4096, c)
            && (BlockRead(disk, stale, v, c).Some? ==> BlockRead(disk, stale, v, c).value[0] == disk[q])
  {
    var p: nat := ClusterStart(v.pos.dataStart, 4096, c);
    var l := p / 512;
    AlignedStart(v.pos.dataStart, c);
    assert p % 0x1_0000_0000 == p && p == 512 * l && ClusterSize(v.bpb) == 4096;
    FirstSector(disk, l);
    var q: nat := StartBlock(l);
    if BlockRead(disk, stale, v, c).Some? {
      FirstByte(disk, stale, Fill<Byte>(4096, 0), LbaToChs(l, 2, 18), 0, 4096);
      assert disk[q * 512..q * 512 + 512][0] == disk[q * 512];
    }
  }

  lemma WholeReadsData(disk: Disk, stale: seq<Byte>, t: seq<Entry>, v: Volume, chain: seq<nat>, k: nat)
    requires |stale| == 512 && Placed(t, v, chain) && k < |chain| && LoadsWhole(disk, stale, t, v, chain)
    ensures InChain(t, v, chain, k) && BlockRead(disk, stale, v, chain[k]) == Some(Slice(disk, v, chain[k]))
  {
    var next := EntriesOn(disk, stale, v);
    ChainExistsIff(next, chain[0], chain);
    ChainFollows(next, chain[0], chain);
    assert LeadsOn(next, chain, k) && InChain(t, v, chain, k);
    WalkReads(disk, stale, v, chain[k]);
  }

  /** A cluster that is misread and still loads whole starts like another sector. */
  lemma WholeFirstByte(disk: Disk, stale: seq<Byte>, t: seq<Entry>, v: Volume, chain: seq<nat>, k: nat)
    requires |stale| == 512 && Placed(t, v, chain) && k < |chain| && InChain(t, v, chain, k)
    requires (ClusterStart(v.pos.dataStart, 4096, chain[k]) / 512 + 1) % 18 == 0
    ensures var p := ClusterStart(v.pos.dataStart, 4096, chain[k]); var q := 512 * OtherSide(p / 512);
            0 <= p < 1474560 && 0 <= q < 1474560 && q != p && (LoadsWhole(disk, stale, t, v, chain) ==> disk[p] == disk[q])
  {
    FirstByteElsewhere(disk, stale, v, chain[k]);
    if LoadsWhole(disk, stale, t, v, chain) {
      WholeReadsData(disk, stale, t, v, chain, k);
      assert Slice(disk, v, chain[k])[0] == disk[ClusterStart(v.pos.dataStart, 4096, chain[k])];
    }
  }

  lemma StoresBesides(disk: Disk, fatStart: nat, t: seq<Entry>, p: nat, x: Byte)
    requires Stores(disk, fatStart, t) && fatStart + |Pack(t)| <= p < 1474560
    ensures Stores(disk[p := x], fatStart, t)
  {
    assert disk[p := x][fatStart..fatStart + |Pack(t)|] == disk[fatStart..fatStart + |Pack(t)|];
  }

  /** Two disks that differ in the first byte of a misread cluster cannot both load whole. */
  lemma DataMustBeReadable(t: seq<Entry>, v: Volume, chain: seq<nat>, k: nat) returns (disk: Disk, stale: seq<Byte>)
    requires Placed(t, v, chain) && k < |chain| && InChain(t, v, chain, k)
    requires (ClusterStart(v.pos.dataStart, 4096, chain[k]) / 512 + 1) % 18 == 0
    ensures |stale| == 512 && Stores(disk, v.pos.fatStart, t) && !LoadsWhole(disk, stale, t, v, chain)
  {
    stale := Fill<Byte>(512, 0);
    disk := StoredIn(t, v.pos.fatStart, 0);
    WholeFirstByte(disk, stale, t, v, chain, k);
    if LoadsWhole(disk, stale, t, v, chain) {
      var p: nat := ClusterStart(v.pos.dataStart, 4096, chain[k]);
      assert disk[p] == 0;
      StoresBesides(disk, v.pos.fatStart, t, p, 1);
      disk := disk[p := 1];
      WholeFirstByte(disk, stale, t, v, chain, k);
    }
  }

  /** A file of at most 16 clusters is loaded whole from every disk that stores the table,
      whatever lies on the stack, if and only if every one of its clusters is readable. */
  lemma LoadsWholeIff(t: seq<Entry>, v: Volume, chain: seq<nat>)
    requires Placed(t, v, chain)
    ensures (forall k: nat {:trigger InChain(t, v, chain, k)} :: k < |chain| ==> InChain(t, v, chain, k) && Readable(v, chain[k]))
            <==> forall disk: Disk, stale: seq<Byte> | |stale| == 512 && Stores(disk, v.pos.fatStart, t) ::
                   LoadsWhole(disk, stale, t, v, chain)
  {
    if forall k: nat {:trigger InChain(t, v, chain, k)} :: k < |chain| ==> InChain(t, v, chain, k) && Readable(v, chain[k]) {
      forall disk: Disk, stale: seq<Byte> | |stale| == 512 && Stores(disk, v.pos.fatStart, t)
        ensures LoadsWhole(disk, stale, t, v, chain)
      {
        AllReadable(disk, stale, t, v, chain);
      }
    } else {
      var k: nat :| k < |chain| && !(InChain(t, v, chain, k) && Readable(v, chain[k]));
      if !EntryReadable(v.pos.fatStart, chain[k]) {
        var disk, stale := EntryMustBeReadable(t, v, chain, k);
      } else {
        var disk, stale := DataMustBeReadable(t, v, chain, k);
      }
    }
  }

  /** And then the segment starts with the disk bytes of its clusters in chain order. */
  lemma WholeConcat(disk: Disk, stale: seq<Byte>, t: seq<Entry>, v: Volume, chain: seq<nat>, k: nat)
    requires |stale| == 512 && Placed(t, v, chain) && LoadsWhole(disk, stale, t, v, chain) && k < |chain|
    ensures InChain(t, v, chain, k)
    ensures Concat(ChainData(BlocksOn(disk, stale, v), chain), |chain|)[0x1000 * k..0x1000 * k + 0x1000] == Slice(disk, v, chain[k])
  {
    assert InChain(t, v, chain, k);
    ConcatBlock(ChainData(BlocksOn(disk, stale, v), chain), |chain|, k);
  }

  lemma WholeIsChain(disk: Disk, stale: seq<Byte>, t: seq<Entry>, v: Volume, chain: seq<nat>)
    requires |stale| == 512 && Placed(t, v, chain) && LoadsWhole(disk, stale, t, v, chain)
    ensures IsChain(EntriesOn(disk, stale, v), chain[0], chain)
  {
    ChainExistsIff(EntriesOn(disk, stale, v), chain[0], chain);
  }
}
