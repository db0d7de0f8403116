/**
 Cluster chains and the image a chain loads into a 64K segment.
 */
module Chains {
  import opened Bytes
  import opened Floppy
  import opened Fat12

  /** The globals bs and s_pos after mounting. */
  datatype Volume = Volume(bpb: Bpb, pos: Layout)

  /** The cluster size the loader's 4096-byte buffer is made for. */
  predicate FitsLoader(b: Bpb) {
    b.sectorSize == 512 && b.sectorsPerCluster == 8
  }

  /** Cluster `c` lies on the disk, and its data and its table entry are read exactly. */
  predicate GoodCluster(v: Volume, c: nat) {
    && c >= 2
    && ClusterStart(v.pos.dataStart, 4096, c) + 4096 <= 1474560
    && ExactRequest(ClusterStart(v.pos.dataStart, 4096, c), 4096)
    && v.pos.fatStart + EntryOffset(c) + 1 < 1474560
    && ExactRequest(v.pos.fatStart + EntryOffset(c), 2)
  }

  function ClusterSize(b: Bpb): (r: Dword)
    ensures r == b.sectorSize * b.sectorsPerCluster
  {
    MulMono(b.sectorSize, b.sectorsPerCluster, 0xFF);
    MulMono(b.sectorSize, 0, b.sectorsPerCluster);
    b.sectorSize * b.sectorsPerCluster
  }

  /** The device read behind read_cluster. */
  function ClusterRead(disk: Disk, stale: seq<Byte>, v: Volume, buf: seq<Byte>, n: nat): Option<seq<Byte>>
    requires |stale| == 512 && v.bpb.sectorSize * v.bpb.sectorsPerCluster <= |buf|
  {
    var size := ClusterSize(v.bpb);
    DeviceRead(disk, stale, buf, ClusterStart(v.pos.dataStart, size, n) % 0x1_0000_0000, size)
  }

  function ClusterData(disk: Disk, v: Volume, c: nat): (r: seq<Byte>)
    requires GoodCluster(v, c)
    ensures |r| == 4096
  {
    var p := ClusterStart(v.pos.dataStart, 4096, c);
    disk[p..p + 4096]
  }

  // ---------- the walk the loader takes ----------

  /** What read_cluster leaves in the loader's buffer, right or wrong; None when the BIOS reports
      an error and the kernel halts. */
  function BlockRead(disk: Disk, stale: seq<Byte>, v: Volume, c: nat): (r: Option<seq<Byte>>)
    requires |stale| == 512 && FitsLoader(v.bpb)
    ensures r.Some? ==> |r.value| == 4096
  {
    ClusterRead(disk, stale, v, Fill<Byte>(4096, 0), c)
  }

  /** A whole cluster overwrites the whole buffer. */
  lemma BlockWhateverBuffer(disk: Disk, stale: seq<Byte>, v: Volume, buf: seq<Byte>, c: nat)
    requires |stale| == 512 && |buf| == 4096 && FitsLoader(v.bpb) && v.pos.dataStart % 512 == 0
    ensures ClusterRead(disk, stale, v, buf, c) == BlockRead(disk, stale, v, c)
  {
    var start := ClusterStart(v.pos.dataStart, 4096, c);
    var p := start % 0x1_0000_0000;
    assert p % 512 == 0 by { AlignedStart(v.pos.dataStart, c); }
    AlignedRead(disk, stale, buf, LbaToChs(p / 512, 2, 18));
    AlignedRead(disk, stale, Fill<Byte>(4096, 0), LbaToChs(p / 512, 2, 18));
  }

  lemma AlignedStart(dataStart: nat, c: nat)
    requires dataStart % 512 == 0
    ensures ClusterStart(dataStart, 4096, c) % 0x1_0000_0000 % 512 == 0
  {
    var p := ClusterStart(dataStart, 4096, c);
    assert p == 512 * (dataStart / 512 + 8 * (c - 2));
    assert p % 0x1_0000_0000 == p - 0x1_0000_0000 * (p / 0x1_0000_0000);
  }

  lemma AlignedRead(disk: Disk, stale: seq<Byte>, buf: seq<Byte>, cursor: Chs)
    requires |stale| == 512 && |buf| == 4096
    ensures ReadAt(disk, stale, buf, cursor, 0, 4096) == Fetch(disk, cursor, 8)
  {
    assert SectorCount(4096) == 8;
    var raw := Fetch(disk, cursor, 8);
    if raw.Some? {
      AssembleIsSlice(raw.value, 8, stale, buf, 0, 4096, 0);
      assert raw.value[0..4096] == raw.value;
      OverlayWhole(buf, raw.value);
    }
  }

  /** Cluster and table entry can be read, right or wrong. */
  predicate Walkable(disk: Disk, stale: seq<Byte>, v: Volume, c: nat)
    requires |stale| == 512 && FitsLoader(v.bpb)
  {
    && c < 0x1_0000 && v.pos.fatStart + EntryOffset(c) < 0x1_0000_0000
    && BlockRead(disk, stale, v, c).Some? && NextCluster(disk, stale, v.pos.fatStart, c).Some?
  }

  /** Where a walk goes from each cluster that can be read, and what is read of it. */
  type Followed = nat -> Option<Entry>
  type Contents = nat -> Cluster

  type Cluster = s: seq<Byte> | |s| == 4096 witness Fill<Byte>(4096, 0)

  /** The entries get_next_cluster comes back with. */
  function EntriesOn(disk: Disk, stale: seq<Byte>, v: Volume): Followed
    requires |stale| == 512 && FitsLoader(v.bpb)
  {
    (c: nat) => if Walkable(disk, stale, v, c) then NextCluster(disk, stale, v.pos.fatStart, c) else None
  }

  /** The bytes read_cluster leaves, of clusters that can be read. */
  function BlocksOn(disk: Disk, stale: seq<Byte>, v: Volume): Contents
    requires |stale| == 512 && FitsLoader(v.bpb)
  {
    (c: nat) => if Walkable(disk, stale, v, c) then BlockRead(disk, stale, v, c).value else Fill<Byte>(4096, 0)
  }

  lemma WalkReads(disk: Disk, stale: seq<Byte>, v: Volume, c: nat)
    requires |stale| == 512 && FitsLoader(v.bpb) && EntriesOn(disk, stale, v)(c).Some?
    ensures v.pos.fatStart + EntryOffset(c) < 0x1_0000_0000 && NextCluster(disk, stale, v.pos.fatStart, c) == EntriesOn(disk, stale, v)(c)
    ensures BlockRead(disk, stale, v, c) == Some(BlocksOn(disk, stale, v)(c))
  {
  }

  /** `chain` is the whole walk from `start` to an end-of-file mark. */
  predicate IsChain(next: Followed, start: nat, chain: seq<nat>)
    decreases |chain|
  {
    && chain != [] && chain[0] == start && start < 0x1_0000 && next(start).Some?
    && if |chain| == 1 then next(start).value >= 0xFF8
       else next(start).value < 0xFF8 && IsChain(next, next(start).value, chain[1..])
  }

  lemma {:induction false} ChainIsUnique(next: Followed, start: nat, a: seq<nat>, b: seq<nat>)
    requires IsChain(next, start, a) && IsChain(next, start, b)
    ensures a == b
    decreases |a|
  {
    if |a| > 1 && |b| > 1 {
      ChainIsUnique(next, next(start).value, a[1..], b[1..]);
      assert a == [a[0]] + a[1..] && b == [b[0]] + b[1..];
    }
  }

  lemma {:induction false} SuffixIsChain(next: Followed, start: nat, chain: seq<nat>, i: nat)
    requires IsChain(next, start, chain) && i < |chain|
    ensures IsChain(next, chain[i], chain[i..])
    decreases i
  {
    if i == 0 {
      assert chain[0..] == chain;
    } else {
      SuffixIsChain(next, next(start).value, chain[1..], i - 1);
      assert chain[1..][i - 1..] == chain[i..];
    }
  }

  /** A walk that ends never visits a cluster twice. */
  lemma ChainIsAcyclic(next: Followed, start: nat, chain: seq<nat>, i: nat, j: nat)
    requires IsChain(next, start, chain) && i < j < |chain|
    ensures chain[i] != chain[j]
  {
    if chain[i] == chain[j] {
      SuffixIsChain(next, start, chain, i);
      SuffixIsChain(next, start, chain, j);
      var a, b := chain[i..], chain[j..];
      assert |a| == |chain| - i && |b| == |chain| - j;
      ChainIsUnique(next, chain[i], a, b);
    }
  }

  /** The k-th cluster leads to the next, the last one to an end-of-file mark. */
  predicate LeadsOn(next: Followed, chain: seq<nat>, k: nat)
    requires k < |chain|
  {
    next(chain[k]).Some?
    && if k + 1 < |chain| then next(chain[k]).value == chain[k + 1] < 0xFF8 else next(chain[k]).value >= 0xFF8
  }

  predicate Follows(next: Followed, chain: seq<nat>) {
    forall k: nat {:trigger LeadsOn(next, chain, k)} :: k < |chain| ==> LeadsOn(next, chain, k)
  }

  lemma {:induction false} ChainFollows(next: Followed, start: nat, chain: seq<nat>)
    requires IsChain(next, start, chain)
    ensures chain != [] && chain[0] == start && Follows(next, chain)
    decreases |chain|
  {
    if |chain| > 1 {
      var rest := chain[1..];
      ChainFollows(next, next(start).value, rest);
      forall k: nat | k < |chain| ensures LeadsOn(next, chain, k) {
        if k > 0 { assert LeadsOn(next, rest, k - 1); }
      }
    }
  }

  lemma {:induction false} FollowsIsChain(next: Followed, start: nat, chain: seq<nat>)
    requires chain != [] && chain[0] == start && start < 0x1_0000 && Follows(next, chain)
    ensures IsChain(next, start, chain)
    decreases |chain|
  {
    assert LeadsOn(next, chain, 0);
    if |chain| > 1 {
      var rest := chain[1..];
      forall k: nat | k < |rest| ensures LeadsOn(next, rest, k) {
        assert LeadsOn(next, chain, k + 1);
      }
      FollowsIsChain(next, chain[1], rest);
    }
  }

  /** Every number a directory entry or a table entry can hold. */
  const CLUSTERS: set<nat> := set c: nat | c < 0x1_0000

  /** The walk that gives up on a repeated cluster; the measure is the clusters not yet visited. */
  function ChainFrom(next: Followed, start: nat, visited: set<nat>): (r: Option<seq<nat>>)
    decreases CLUSTERS - visited
  {
    if start >= 0x1_0000 || next(start).None? || start in visited then None
    else if next(start).value >= 0xFF8 then Some([start])
    else
      assert start in CLUSTERS - visited;
      var rest := ChainFrom(next, next(start).value, visited + {start});
      if rest.None? then None else Some([start] + rest.value)
  }

  lemma {:induction false} ChainFromIsChain(next: Followed, start: nat, visited: set<nat>)
    requires ChainFrom(next, start, visited).Some?
    ensures IsChain(next, start, ChainFrom(next, start, visited).value)
    decreases CLUSTERS - visited
  {
    if next(start).value < 0xFF8 {
      assert start in CLUSTERS - visited;
      ChainFromIsChain(next, next(start).value, visited + {start});
      var rest := ChainFrom(next, next(start).value, visited + {start}).value;
      assert ([start] + rest)[1..] == rest;
    }
  }

  lemma {:induction false} ChainFromFindsChain(next: Followed, start: nat, visited: set<nat>, chain: seq<nat>)
    requires IsChain(next, start, chain) && forall c :: c in chain ==> c !in visited
    ensures ChainFrom(next, start, visited) == Some(chain)
    decreases |chain|
  {
    assert chain == [start] + chain[1..];
    assert start in chain;
    if |chain| > 1 {
      forall c | c in chain[1..] ensures c !in visited + {start} {
        var j :| 0 <= j < |chain| - 1 && chain[1..][j] == c;
        ChainIsAcyclic(next, start, chain, 0, j + 1);
      }
      ChainFromFindsChain(next, next(start).value, visited + {start}, chain[1..]);
    } else {
      assert chain == [start];
    }
  }

  /** The loader's walk from `start` ends exactly when the search that gives up on a repeated
      cluster succeeds, and then both name the same clusters. */
  lemma ChainExistsIff(next: Followed, start: nat, chain: seq<nat>)
    ensures ChainFrom(next, start, {}) == Some(chain) <==> IsChain(next, start, chain)
  {
    if IsChain(next, start, chain) {
      ChainFromFindsChain(next, start, {}, chain);
    } else if ChainFrom(next, start, {}) == Some(chain) {
      ChainFromIsChain(next, start, {});
    }
  }

  // ---------- what loading a chain leaves in the segment ----------

  predicate Blocks<T>(blocks: seq<seq<T>>) {
    forall i :: 0 <= i < |blocks| ==> |blocks[i]| == 0x1000
  }

  /** The segment after the first `k` blocks: the 16-bit offset wraps every 16 blocks. */
  function Laid<T>(mem: seq<T>, blocks: seq<seq<T>>, k: nat): (r: seq<T>)
    requires |mem| == 0x1_0000 && Blocks(blocks) && k <= |blocks|
    ensures |r| == 0x1_0000
  {
    if k == 0 then mem else Overlay(Laid(mem, blocks, k - 1), 0x1000 * ((k - 1) % 16), blocks[k - 1])
  }

  function BlockOf<T>(mem: seq<T>, b: nat): seq<T>
    requires |mem| == 0x1_0000 && b < 16
  {
    mem[0x1000 * b..0x1000 * b + 0x1000]
  }

  lemma OverlayBlock<T>(mem: seq<T>, at: nat, data: seq<T>, b: nat)
    requires |mem| == 0x1_0000 && at < 16 && b < 16 && |data| == 0x1000
    ensures BlockOf(Overlay(mem, 0x1000 * at, data), b) == if b == at then data else BlockOf(mem, b)
  {
    var m := Overlay(mem, 0x1000 * at, data);
    var l, r := BlockOf(m, b), if b == at then data else BlockOf(mem, b);
    forall i | 0 <= i < 0x1000 ensures l[i] == r[i] {
      assert l[i] == m[0x1000 * b + i];
    }
  }

  /** The last of the first `k` blocks that lands in place `b`. */
  function Latest(k: nat, b: nat): (j: nat)
    requires b < 16 && b < k
    ensures b <= j < k && j % 16 == b && k <= j + 16
  {
    b + 16 * ((k - 1 - b) / 16)
  }

  lemma LatestStep(k: nat, b: nat)
    requires b < 16 && b <= k
    ensures b == k % 16 ==> Latest(k + 1, b) == k
    ensures b != k % 16 ==> b < k && Latest(k + 1, b) == Latest(k, b)
  {
  }

  /** For any number of blocks, place `b` of the segment holds the last block whose index is `b`
      modulo 16, and what was there before when there are too few blocks to reach it. */
  lemma {:induction false} LaidBlocks<T>(mem: seq<T>, blocks: seq<seq<T>>, k: nat, b: nat)
    requires |mem| == 0x1_0000 && Blocks(blocks) && k <= |blocks| && b < 16
    ensures BlockOf(Laid(mem, blocks, k), b) == if b < k then blocks[Latest(k, b)] else BlockOf(mem, b)
    decreases k
  {
    if k > 0 {
      var m := k - 1;
      var at := m % 16;
      LaidBlocks(mem, blocks, m, b);
      OverlayBlock(Laid(mem, blocks, m), at, blocks[m], b);
      if b < k { LatestStep(m, b); }
    }
  }

  function Concat<T>(blocks: seq<seq<T>>, k: nat): (r: seq<T>)
    requires Blocks(blocks) && k <= |blocks|
    ensures |r| == 0x1000 * k
  {
    if k == 0 then [] else Concat(blocks, k - 1) + blocks[k - 1]
  }

  lemma {:induction false} ConcatBlock<T>(blocks: seq<seq<T>>, n: nat, k: nat)
    requires Blocks(blocks) && k < n <= |blocks|
    ensures Concat(blocks, n)[0x1000 * k..0x1000 * k + 0x1000] == blocks[k]
    decreases n
  {
    var before := Concat(blocks, n - 1);
    if k < n - 1 {
      ConcatBlock(blocks, n - 1, k);
      assert (before + blocks[n - 1])[0x1000 * k..0x1000 * k + 0x1000] == before[0x1000 * k..0x1000 * k + 0x1000];
    }
  }

  lemma AppendBlock<T>(head: seq<T>, mem: seq<T>, data: seq<T>)
    requires |head| + |data| <= |mem|
    ensures Overlay(head + mem[|head|..], |head|, data) == head + data + mem[|head| + |data|..]
  {
  }

  /** At most 16 blocks are laid down whole and in order. */
  lemma {:induction false} FewBlocksAreConcat<T>(mem: seq<T>, blocks: seq<seq<T>>, k: nat)
    requires |mem| == 0x1_0000 && Blocks(blocks) && k <= |blocks| && k <= 16
    ensures Laid(mem, blocks, k) == Concat(blocks, k) + mem[0x1000 * k..]
    decreases k
  {
    if k == 0 {
      assert mem[0..] == mem;
    } else {
      FewBlocksAreConcat(mem, blocks, k - 1);
      assert (k - 1) % 16 == k - 1;
      assert Laid(mem, blocks, k) == Overlay(Laid(mem, blocks, k - 1), |Concat(blocks, k - 1)|, blocks[k - 1]);
      AppendBlock(Concat(blocks, k - 1), mem, blocks[k - 1]);
    }
  }

  /** What is read of the clusters of a walk, in order. */
  function ChainData(read: Contents, chain: seq<nat>): (r: seq<seq<Byte>>)
    ensures |r| == |chain| && Blocks(r)
  {
    seq(|chain|, i requires 0 <= i < |chain| => read(chain[i]))
  }

  /** The image load_file_content builds over the old contents of the segment. */
  function Image(read: Contents, mem: seq<Byte>, chain: seq<nat>): (r: seq<Byte>)
    requires |mem| == 0x1_0000
    ensures |r| == 0x1_0000
  {
    Laid(mem, ChainData(read, chain), |chain|)
  }

  /** A walk of at most 16 clusters ends up in the segment whole, in order, with the rest of the
      segment untouched. */
  lemma ImageOfShortChain(read: Contents, mem: seq<Byte>, chain: seq<nat>)
    requires |mem| == 0x1_0000 && |chain| <= 16
    ensures Image(read, mem, chain) == Concat(ChainData(read, chain), |chain|) + mem[0x1000 * |chain|..]
  {
    FewBlocksAreConcat(mem, ChainData(read, chain), |chain|);
  }
}
