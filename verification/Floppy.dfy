/**
 The floppy block layer: linear-block to cylinder/head/sector conversion and the
 multi-sector read loop, related to reading a slice of a flat disk image.
 */
module Floppy {
  import opened Bytes
  import opened CString


  /** A 1440K floppy (80 cylinders, 2 heads, 18 sectors of 512 bytes) as a flat image, sector after sector. */
  type Disk = d: seq<Byte> | |d| == 1474560 witness seq(1474560, _ => 0)

  datatype Chs = Chs(cylinder: Byte, head: Byte, sector: Byte)

  // ---------- lba_to_chs ----------

  /** The conversion as coded: three unsigned char results, 32-bit arithmetic. */
  function LbaToChs(lba: Dword, heads: Byte, sectors: Byte): Chs
    requires heads != 0 && sectors != 0
  {
    Chs(lba / (sectors * heads) % 0x100, (lba + 1) % 0x1_0000_0000 / sectors % heads, lba % sectors + 1)
  }

  /** The linear block a cylinder/head/sector triple denotes. */
  function Linear(c: Chs, heads: Byte, sectors: Byte): int {
    (c.cylinder * heads + c.head) * sectors + (c.sector - 1)
  }

  lemma MulMono(m: nat, a: int, b: int)
    requires a <= b
    ensures m * a <= m * b
  {
    assert m * (b - a) >= 0;
  }

  lemma DivUnique(a: nat, d: nat, q: int, r: int)
    requires d > 0 && a == d * q + r && 0 <= r < d
    ensures a / d == q && a % d == r
  {
    var e := a / d - q;
    assert a == d * (a / d) + a % d;
    assert d * e == r - a % d by { assert d * e == d * (a / d) - d * q; }
    if e >= 1 { MulMono(d, 1, e); }
    if e <= -1 { MulMono(d, e, -1); }
  }

  /** A quotient by a product is a quotient of a quotient. */
  lemma DivOfProduct(a: nat, m: nat, n: nat, t: nat, s: nat, c: nat, h: nat)
    requires a == m * t + s && s < m && t == n * c + h && h < n
    ensures a / (m * n) == c
  {
    assert a == (m * n) * c + (m * h + s) by {
      assert m * (n * c) == (m * n) * c;
      assert m * (n * c + h) == m * (n * c) + m * h;
    }
    assert m * h + s < m * n by { MulMono(m, h, n - 1); }
    DivUnique(a, m * n, c, m * h + s);
  }

  /** Advancing one block advances the track exactly from the last sector of a track. */
  lemma SuccDiv(a: nat, m: nat, q: nat, r: nat)
    requires m > 0 && a == m * q + r && r < m
    ensures (a + 1) / m == if r + 1 == m then q + 1 else q
    ensures (a + 1) % m == 0 <==> r + 1 == m
  {
    if r + 1 < m {
      DivUnique(a + 1, m, q, r + 1);
    } else {
      assert m * (q + 1) == m * q + m;
      DivUnique(a + 1, m, q + 1, 0);
    }
  }

  lemma SuccModDiffers(t: nat, n: nat, c: nat, h: nat)
    requires n > 1 && t == n * c + h && h < n
    ensures (t + 1) % n != h
  {
    if h + 1 < n {
      DivUnique(t + 1, n, c, h + 1);
    } else {
      assert n * (c + 1) == n * c + n;
      DivUnique(t + 1, n, c + 1, 0);
    }
  }

  /** Only the right head number reassembles to the block. */
  lemma OnlyRightHead(c: int, h: int, g: int, s: int, heads: nat, sectors: nat)
    requires sectors > 0
    ensures (c * heads + g) * sectors + s == (c * heads + h) * sectors + s <==> g == h
  {
    var e := g - h;
    assert (c * heads + g) * sectors - (c * heads + h) * sectors == sectors * e;
    if e >= 1 { MulMono(sectors, 1, e); }
    if e <= -1 { MulMono(sectors, e, -1); }
  }

  lemma NoWrap(lba: nat, k: nat)
    requires 0 < k <= 0xFF * 0xFF && lba / k < 0x100
    ensures lba + 1 < 0x1_0000_0000
  {
    assert lba == k * (lba / k) + lba % k;
    MulMono(k, lba / k, 0xFF);
  }

  lemma HeadRightIff(lba: nat, heads: nat, sectors: nat, t: nat, s: nat, c: nat, h: nat)
    requires lba == sectors * t + s && s < sectors && t == heads * c + h && h < heads
    ensures (lba + 1) / sectors % heads == h <==> heads == 1 || (lba + 1) % sectors != 0
  {
    SuccDiv(lba, sectors, t, s);
    DivUnique(t, heads, c, h);
    if heads > 1 {
      SuccModDiffers(t, heads, c, h);
    }
  }

  lemma Reassembles(lba: nat, heads: nat, sectors: nat, t: nat, s: nat, c: nat, h: nat)
    requires lba == sectors * t + s && t == heads * c + h
    ensures (c * heads + h) * sectors + s == lba
  {
  }

  /** Whenever the cylinder fits its byte, the conversion is exact precisely when the drive
      has one head or the block is not the last one on its track. */
  lemma ChsExactIff(lba: Dword, heads: Byte, sectors: Byte)
    requires heads != 0 && sectors != 0
    requires lba / (sectors * heads) < 0x100
    ensures Linear(LbaToChs(lba, heads, sectors), heads, sectors) == lba
            <==> heads == 1 || (lba + 1) % sectors != 0
  {
    var t, s := lba / sectors, lba % sectors;
    var c, h := t / heads, t % heads;
    DivOfProduct(lba, sectors, heads, t, s, c, h);
    assert 0 < sectors * heads <= 0xFF * 0xFF by { MulMono(sectors, heads, 0xFF); MulMono(sectors, 1, heads); }
    NoWrap(lba, sectors * heads);
    HeadRightIff(lba, heads, sectors, t, s, c, h);
    var g := (lba + 1) / sectors % heads;
    Reassembles(lba, heads, sectors, t, s, c, h);
    OnlyRightHead(c, h, g, s, heads, sectors);
    assert LbaToChs(lba, heads, sectors) == Chs(c, g, s + 1);
  }

  // ---------- one sector through the BIOS ----------

  /** Drive contents by cylinder, head and sector; None is the BIOS error that halts the kernel. */
  function BiosRead(disk: Disk, c: Chs): (r: Option<seq<Byte>>)
    ensures r.Some? ==> |r.value| == 512
  {
    if c.cylinder < 80 && c.head < 2 && 1 <= c.sector <= 18 then
      var l := (c.cylinder * 2 + c.head) * 18 + (c.sector - 1);
      Some(disk[l * 512..l * 512 + 512])
    else None
  }

  /** The head/cylinder carry taken at the top of each iteration. */
  function Carry(c: Chs): Chs {
    if c.sector > 18 then
      var h := (c.head + 1) % 2;
      Chs(if h == 0 then (c.cylinder + 1) % 0x100 else c.cylinder, h, 1)
    else c
  }

  function NextSector(c: Chs): Chs {
    c.(sector := (c.sector + 1) % 0x100)
  }

  /** `c`, possibly one past the end of its track, stands for block `l` of the 18-sector 2-head drive. */
  ghost predicate Denotes(c: Chs, l: int) {
    c.head < 2 && 1 <= c.sector <= 19 && (c.cylinder * 2 + c.head) * 18 + (c.sector - 1) == l
  }

  /** From an exact start the carry steps visit consecutive blocks over every head and
      cylinder boundary, and each read returns that block of the flat image. */
  lemma CarryVisitsNext(disk: Disk, c: Chs, l: nat)
    requires Denotes(c, l) && l < 2880
    ensures BiosRead(disk, Carry(c)) == Some(disk[l * 512..l * 512 + 512])
    ensures Denotes(NextSector(Carry(c)), l + 1)
  {
  }

  /** For the floppy geometry `lba_to_chs` starts exactly except on the last sector of a track,
      where it names the other side of the same cylinder. */
  lemma StartExactIff(l: nat)
    requires l < 2880
    ensures Denotes(LbaToChs(l, 2, 18), l) <==> (l + 1) % 18 != 0
    ensures (l + 1) % 18 == 0 ==> LbaToChs(l, 2, 18) == Chs(l / 36, 1 - l / 18 % 2, 18)
  {
    var t, s := l / 18, l % 18;
    assert l / (18 * 2) == t / 2;
    assert (l + 1) / 18 == if s == 17 then t + 1 else t;
    assert LbaToChs(l, 2, 18) == Chs(t / 2, (if s == 17 then t + 1 else t) % 2, s + 1);
  }

  /** The block a read that starts on the last sector `l` of a track gets instead. */
  function OtherSide(l: nat): int {
    if l / 18 % 2 == 0 then l + 18 else l - 18
  }

  /** Where a read that starts in block `l` really starts. */
  function StartBlock(l: nat): int {
    if (l + 1) % 18 != 0 then l else OtherSide(l)
  }

  lemma FirstSector(disk: Disk, l: nat)
    requires l < 2880
    ensures 0 <= StartBlock(l) < 2880 && (StartBlock(l) != l ==> (StartBlock(l) + 1) % 18 == 0)
    ensures BiosRead(disk, Carry(LbaToChs(l, 2, 18))) == Some(disk[StartBlock(l) * 512..StartBlock(l) * 512 + 512])
  {
    StartExactIff(l);
    var t, s := l / 18, l % 18;
    assert l == 18 * t + s && t < 160;
  }

  lemma CylinderRepeats(l: nat, q: nat, r: nat)
    requires l == 9216 * q + r && r < 9216
    ensures l / 36 % 0x100 == r / 36
  {
    assert l / 36 == 256 * q + r / 36;
  }

  lemma HeadRepeats(l: nat, q: nat, r: nat)
    requires l == 9216 * q + r
    ensures (l + 1) / 18 % 2 == (r + 1) / 18 % 2 && l % 18 == r % 18
  {
    var h := (r + 1) / 18;
    assert (l + 1) / 18 == 512 * q + h;
    assert 512 * q + h == 2 * (256 * q) + h;
    TwiceMore(256 * q, h);
    EighteenTimesMore(512 * q, r);
  }

  lemma TwiceMore(k: nat, h: nat)
    ensures (2 * k + h) % 2 == h % 2
  {
  }

  lemma EighteenTimesMore(k: nat, r: nat)
    ensures (18 * k + r) % 18 == r % 18
  {
  }

  lemma StartForm(l: Dword)
    requires l < 0x80_0000
    ensures LbaToChs(l, 2, 18) == Chs(l / 36 % 0x100, (l + 1) / 18 % 2, l % 18 + 1)
  {
    var m := l + 1;
    assert m % 0x1_0000_0000 == m;
  }

  /** The cylinder is a byte: blocks 256 cylinders apart start alike. */
  lemma StartsRepeat(l: Dword, q: nat, r: Dword)
    requires l < 0x80_0000 && l == 9216 * q + r && r < 9216
    ensures LbaToChs(l, 2, 18) == LbaToChs(r, 2, 18)
  {
    StartForm(l);
    StartForm(r);
    CylinderRepeats(l, q, r);
    HeadRepeats(l, q, r);
    CylinderRepeats(r, 0, r);
  }

  /** The bytes of the `n` sectors the loop fetches: one BIOS call each, carrying before the
      call and incrementing after it. */
  function Fetch(disk: Disk, c: Chs, n: nat): (r: Option<seq<Byte>>)
    ensures r.Some? ==> |r.value| == 512 * n
    decreases n
  {
    if n == 0 then Some([])
    else
      var sector := BiosRead(disk, Carry(c));
      var rest := Fetch(disk, NextSector(Carry(c)), n - 1);
      if sector.None? || rest.None? then None else Some(sector.value + rest.value)
  }

  /** From an exact start the fetched sectors are consecutive blocks of the flat image, over
      every head and cylinder boundary. */
  lemma {:induction false} FetchIsConsecutive(disk: Disk, c: Chs, n: nat, l: nat)
    requires l + n <= 2880 && (n > 0 ==> Denotes(c, l))
    ensures Fetch(disk, c, n) == Some(disk[l * 512..(l + n) * 512])
    decreases n
  {
    if n == 0 {
      assert disk[l * 512..l * 512] == [];
    } else {
      CarryVisitsNext(disk, c, l);
      FetchIsConsecutive(disk, NextSector(Carry(c)), n - 1, l + 1);
      SplitSlice(disk, l * 512, (l + 1) * 512, (l + n) * 512);
    }
  }

  // ---------- the read loop ----------

  /** How many bytes one pass copies. */
  function Chunk(numBytes: nat): nat {
    if numBytes > 512 then 512 else numBytes
  }

  /** What the byte counter says after a pass. */
  function BytesLeft(numBytes: nat, off: nat): nat
    requires off < 512
  {
    if numBytes > 512 then numBytes - (512 - off) else 0
  }

  /** What the `n` passes over the fetched bytes leave in the buffer.  `stale` is whatever
      follows the 512-byte sector buffer on the kernel stack: copying 512 bytes from a
      non-zero offset runs into it. */
  function Assemble<T>(raw: seq<T>, n: nat, stale: seq<T>, buf: seq<T>, at: nat, numBytes: nat, off: nat): (r: seq<T>)
    requires |raw| == 512 * n && |stale| == 512 && off < 512
    requires n > 0 ==> numBytes > 512 * (n - 1) && at + numBytes <= |buf|
    ensures |r| == |buf|
    decreases n
  {
    if n == 0 then buf
    else
      var buf' := Overlay(buf, at, (raw[..512] + stale)[off..off + Chunk(numBytes)]);
      Assemble(raw[512..], n - 1, stale, buf', at + (512 - off),
               BytesLeft(numBytes, off), 0)
  }

  lemma FetchPass(disk: Disk, c: Chs, n: nat)
    requires n > 0 && Fetch(disk, c, n).Some?
    ensures BiosRead(disk, Carry(c)).Some? && Fetch(disk, NextSector(Carry(c)), n - 1).Some?
    ensures Fetch(disk, c, n).value[..512] == BiosRead(disk, Carry(c)).value
    ensures Fetch(disk, c, n).value[512..] == Fetch(disk, NextSector(Carry(c)), n - 1).value
  {
    SplitConcat(BiosRead(disk, Carry(c)).value, Fetch(disk, NextSector(Carry(c)), n - 1).value);
  }

  lemma AssemblePass<T>(raw: seq<T>, n: nat, stale: seq<T>, buf: seq<T>, at: nat, numBytes: nat, off: nat)
    requires n > 0 && |raw| == 512 * n && |stale| == 512 && off < 512
    requires numBytes > 512 * (n - 1) && at + numBytes <= |buf|
    ensures n > 1 ==> BytesLeft(numBytes, off) > 512 * (n - 2) && at + (512 - off) + BytesLeft(numBytes, off) <= |buf|
    ensures Assemble(raw, n, stale, buf, at, numBytes, off)
            == Assemble(raw[512..], n - 1, stale, Overlay(buf, at, (raw[..512] + stale)[off..off + Chunk(numBytes)]),
                        at + (512 - off), BytesLeft(numBytes, off), 0)
  {
  }

  function SectorCount(count: nat): nat {
    if count == 0 then 0 else (count - 1) / 512 + 1
  }

  /** What `n` more passes make of the buffer; None when the BIOS reports an error. */
  function Pending(disk: Disk, stale: seq<Byte>, buf: seq<Byte>, c: Chs, n: nat, at: nat, numBytes: nat, off: nat): (r: Option<seq<Byte>>)
    requires |stale| == 512 && off < 512
    requires n > 0 ==> numBytes > 512 * (n - 1) && at + numBytes <= |buf|
    ensures r.Some? ==> |r.value| == |buf|
  {
    var raw := Fetch(disk, c, n);
    if raw.None? then None else Some(Assemble(raw.value, n, stale, buf, at, numBytes, off))
  }

  /** The loop from a cursor and an offset into the first sector. */
  function ReadAt(disk: Disk, stale: seq<Byte>, buf: seq<Byte>, c: Chs, off: nat, count: nat): (r: Option<seq<Byte>>)
    requires |stale| == 512 && off < 512 && count <= |buf|
    ensures r.Some? ==> |r.value| == |buf|
  {
    Pending(disk, stale, buf, c, SectorCount(count), 0, count, off)
  }

  /** A device read of `count` bytes at `pos` into a buffer holding `buf`; None when the BIOS
      reports an error and the kernel halts. */
  function DeviceRead(disk: Disk, stale: seq<Byte>, buf: seq<Byte>, pos: Dword, count: nat): (r: Option<seq<Byte>>)
    requires |stale| == 512 && count <= |buf|
    ensures r.Some? ==> |r.value| == |buf|
  {
    ReadAt(disk, stale, buf, LbaToChs(pos / 512, 2, 18), pos % 512, count)
  }

  /** The device part of `read`, writing the caller's buffer in place. */
  method ReadDevice(disk: Disk, stale: seq<Byte>, buf: array<Byte>, pos: Dword, count: nat) returns (ok: bool)
    requires |stale| == 512 && count <= buf.Length
    modifies buf
    ensures ok <==> DeviceRead(disk, stale, old(buf[..]), pos, count).Some?
    ensures ok ==> buf[..] == DeviceRead(disk, stale, old(buf[..]), pos, count).value
  {
    var start := LbaToChs(pos / 512, 2, 18);
    ok := SectorLoop(disk, stale, buf, start, pos % 512, count);
  }

  /** One BIOS call and one copy per sector. */
  method SectorLoop(disk: Disk, stale: seq<Byte>, buf: array<Byte>, start: Chs, offset: nat, count: nat) returns (ok: bool)
    requires |stale| == 512 && offset < 512 && count <= buf.Length
    modifies buf
    ensures ok == ReadAt(disk, stale, old(buf[..]), start, offset, count).Some?
    ensures ok ==> buf[..] == ReadAt(disk, stale, old(buf[..]), start, offset, count).value
  {
    var c, numSectors: nat := start, SectorCount(count);
    var numBytes: nat, off: nat, at: nat := count, offset, 0;
    ghost var goal := ReadAt(disk, stale, buf[..], start, offset, count);
    while numSectors > 0
      invariant off < 512
      invariant numSectors > 0 ==> numBytes > 512 * (numSectors - 1) && at + numBytes <= buf.Length
      invariant goal == Pending(disk, stale, buf[..], c, numSectors, at, numBytes, off)
    {
      c, ok := ReadOneSector(disk, stale, buf, c, at, numBytes, off, numSectors);
      if !ok {
        return;
      }
      numBytes := BytesLeft(numBytes, off);
      at := at + (512 - off);
      numSectors := numSectors - 1;
      off := 0;
    }
    ok := true;
  }

  /** One pass: carry, read a sector through the BIOS, copy part of it, count the sector. */
  method ReadOneSector(disk: Disk, stale: seq<Byte>, buf: array<Byte>, c: Chs, at: nat, numBytes: nat, off: nat, ghost n: nat)
    returns (d: Chs, ok: bool)
    requires |stale| == 512 && off < 512 && n > 0 && numBytes > 512 * (n - 1) && at + numBytes <= buf.Length
    modifies buf
    ensures n > 1 ==> BytesLeft(numBytes, off) > 512 * (n - 2) && at + (512 - off) + BytesLeft(numBytes, off) <= buf.Length
    ensures Pending(disk, stale, old(buf[..]), c, n, at, numBytes, off)
            == if ok then Pending(disk, stale, buf[..], d, n - 1, at + (512 - off), BytesLeft(numBytes, off), 0) else None
  {
    d := NextTrack(c);
    var sector := BiosRead(disk, d);
    d := NextSector(d);
    ok := sector.Some?;
    ghost var before := buf[..];
    if ok {
      MemCpy(buf, at, (sector.value + stale)[off..off + Chunk(numBytes)]);
      if Fetch(disk, d, n - 1).Some? {
        FetchPass(disk, c, n);
        AssemblePass(Fetch(disk, c, n).value, n, stale, before, at, numBytes, off);
      }
    }
  }

  /** The carry, step by step as the loop performs it. */
  method NextTrack(c: Chs) returns (d: Chs)
    ensures d == Carry(c)
  {
    d := c;
    if d.sector > 18 {
      d := d.(sector := 1, head := (d.head + 1) % 2);
      if d.head == 0 {
        d := d.(cylinder := (d.cylinder + 1) % 0x100);
      }
    }
  }

  // ---------- refinement of the flat image ----------

  /** What a caller checks: an empty request, or one that does not start on the last sector
      of a track and whose offset does not push it into one sector more than the loop fetches. */
  predicate ExactRequest(pos: nat, count: nat) {
    count == 0 || ((pos / 512 + 1) % 18 != 0 && pos % 512 + count <= 512 * SectorCount(count))
  }

  /** Writing one sector's tail, stale bytes included, and then the rest writes the whole slice. */
  lemma FirstSectorThenRest<T>(buf: seq<T>, at: nat, raw: seq<T>, stale: seq<T>, off: nat, n: nat)
    requires off < 512 && |stale| == 512 && n > 512 && at + n <= |buf| && off + n <= |raw|
    ensures var step := 512 - off;
            Overlay(Overlay(buf, at, (raw[..512] + stale)[off..off + 512]), at + step, raw[512..off + n])
            == Overlay(buf, at, raw[off..off + n])
  {
    var step := 512 - off;
    var whole := Overlay(buf, at, raw[off..off + n]);
    var once := Overlay(buf, at, (raw[..512] + stale)[off..off + 512]);
    var parts := Overlay(once, at + step, raw[512..off + n]);
    forall i | 0 <= i < |buf| ensures parts[i] == whole[i] {
      if at <= i < at + step {
        assert once[i] == (raw[..512] + stale)[off + (i - at)];
      }
    }
  }

  /** The last pass copies what is wanted from inside its sector. */
  lemma LastPass<T>(raw: seq<T>, stale: seq<T>, buf: seq<T>, at: nat, numBytes: nat, off: nat)
    requires |raw| == |stale| == 512 && 0 < numBytes && off + numBytes <= 512 && at + numBytes <= |buf|
    ensures Assemble(raw, 1, stale, buf, at, numBytes, off) == Overlay(buf, at, raw[off..off + numBytes])
  {
    assert (raw[..512] + stale)[off..off + numBytes] == raw[off..off + numBytes];
  }

  /** Enough fetched bytes assemble to exactly the wanted slice, and nothing else is written. */
  lemma {:induction false} AssembleIsSlice<T>(raw: seq<T>, n: nat, stale: seq<T>, buf: seq<T>, at: nat, numBytes: nat, off: nat)
    requires n > 0 && |raw| == 512 * n && |stale| == 512 && off < 512 && at + numBytes <= |buf|
    requires numBytes > 512 * (n - 1) && off + numBytes <= 512 * n
    ensures Assemble(raw, n, stale, buf, at, numBytes, off) == Overlay(buf, at, raw[off..off + numBytes])
    decreases n
  {
    if n == 1 {
      LastPass(raw, stale, buf, at, numBytes, off);
    } else {
      var step := 512 - off;
      var buf' := Overlay(buf, at, (raw[..512] + stale)[off..off + 512]);
      AssemblePass(raw, n, stale, buf, at, numBytes, off);
      AssembleIsSlice(raw[512..], n - 1, stale, buf', at + step, numBytes - step, 0);
      assert raw[512..][0..numBytes - step] == raw[512..off + numBytes];
      FirstSectorThenRest(buf, at, raw, stale, off, numBytes);
    }
  }

  /** The loop from a cursor denoting block `l` delivers the slice at byte `off` of that block. */
  lemma ReadFromCursor(disk: Disk, stale: seq<Byte>, buf: seq<Byte>, c: Chs, l: nat, off: nat, count: nat)
    requires |stale| == 512 && off < 512 && 0 < count <= |buf| && off + count <= 512 * SectorCount(count)
    requires Denotes(c, l) && l * 512 + off + count <= 1474560
    ensures ReadAt(disk, stale, buf, c, off, count) == Some(Overlay(buf, 0, disk[l * 512 + off..l * 512 + off + count]))
  {
    var n := SectorCount(count);
    FetchIsConsecutive(disk, c, n, l);
    var raw := disk[l * 512..(l + n) * 512];
    AssembleIsSlice(raw, n, stale, buf, 0, count, off);
    SliceOfSlice(disk, l * 512, (l + n) * 512, off, off + count);
  }

  lemma EmptyRequest(disk: Disk, stale: seq<Byte>, buf: seq<Byte>, c: Chs, off: nat, pos: nat)
    requires |stale| == 512 && off < 512 && pos <= 1474560
    ensures ReadAt(disk, stale, buf, c, off, 0) == Some(Overlay(buf, 0, disk[pos..pos]))
  {
    assert Overlay(buf, 0, disk[pos..pos]) == buf;
  }

  lemma RequestFrom(disk: Disk, stale: seq<Byte>, buf: seq<Byte>, l: nat, off: nat, count: nat)
    requires |stale| == 512 && off < 512 && 0 < count <= |buf| && off + count <= 512 * SectorCount(count)
    requires l < 2880 && (l + 1) % 18 != 0 && l * 512 + off + count <= 1474560
    ensures ReadAt(disk, stale, buf, LbaToChs(l, 2, 18), off, count)
            == Some(Overlay(buf, 0, disk[l * 512 + off..l * 512 + off + count]))
  {
    StartExactIff(l);
    ReadFromCursor(disk, stale, buf, LbaToChs(l, 2, 18), l, off, count);
  }

  lemma NonEmptyRequest(disk: Disk, stale: seq<Byte>, buf: seq<Byte>, pos: nat, count: nat)
    requires |stale| == 512 && 0 < count <= |buf| && pos + count <= 1474560 && ExactRequest(pos, count)
    ensures ReadAt(disk, stale, buf, LbaToChs(pos / 512, 2, 18), pos % 512, count)
            == Some(Overlay(buf, 0, disk[pos..pos + count]))
  {
    var l, off := pos / 512, pos % 512;
    assert l * 512 + off == pos;
    RequestFrom(disk, stale, buf, l, off, count);
  }

  /** On an exact request the buffer receives the slice of the flat image and keeps the rest. */
  lemma ExactRequestReadsSlice(disk: Disk, stale: seq<Byte>, buf: seq<Byte>, pos: nat, count: nat)
    requires |stale| == 512 && count <= |buf| && pos + count <= 1474560 && ExactRequest(pos, count)
    ensures DeviceRead(disk, stale, buf, pos, count) == Some(Overlay(buf, 0, disk[pos..pos + count]))
  {
    if count == 0 {
      EmptyRequest(disk, stale, buf, LbaToChs(pos / 512, 2, 18), pos % 512, pos);
    } else {
      NonEmptyRequest(disk, stale, buf, pos, count);
    }
  }

  // ---------- whatever the request ----------

  lemma {:induction false} PassesStayInside<T>(raw: seq<T>, n: nat, stale: seq<T>, buf: seq<T>, at: nat, numBytes: nat, off: nat, i: nat)
    requires |raw| == 512 * n && |stale| == 512 && off < 512
    requires n > 0 ==> numBytes > 512 * (n - 1) && at + numBytes <= |buf|
    requires n > 0 ==> at + numBytes <= i
    requires i < |buf|
    ensures Assemble(raw, n, stale, buf, at, numBytes, off)[i] == buf[i]
    decreases n
  {
    if n > 0 {
      var buf' := Overlay(buf, at, (raw[..512] + stale)[off..off + Chunk(numBytes)]);
      PassesStayInside(raw[512..], n - 1, stale, buf', at + (512 - off),
                       BytesLeft(numBytes, off), 0, i);
    }
  }

  /** Exact or not, a read never touches the buffer past the requested count. */
  lemma ReadStaysInside(disk: Disk, stale: seq<Byte>, buf: seq<Byte>, pos: Dword, count: nat)
    requires |stale| == 512 && count <= |buf|
    ensures var r := DeviceRead(disk, stale, buf, pos, count);
            r.Some? ==> r.value[count..] == buf[count..]
  {
    var n := SectorCount(count);
    var raw := Fetch(disk, LbaToChs(pos / 512, 2, 18), n);
    if raw.Some? {
      var b := Assemble(raw.value, n, stale, buf, 0, count, pos % 512);
      forall i | count <= i < |buf| ensures b[i] == buf[i] {
        PassesStayInside(raw.value, n, stale, buf, 0, count, pos % 512, i);
      }
    }
  }

  // ---------- and only on those requests ----------

  /** Bytes before the write cursor are final. */
  lemma {:induction false} PassesKeepPrefix<T>(raw: seq<T>, n: nat, stale: seq<T>, buf: seq<T>, at: nat, numBytes: nat, off: nat, i: nat)
    requires |raw| == 512 * n && |stale| == 512 && off < 512 && i < at && i < |buf|
    requires n > 0 ==> numBytes > 512 * (n - 1) && at + numBytes <= |buf|
    ensures Assemble(raw, n, stale, buf, at, numBytes, off)[i] == buf[i]
    decreases n
  {
    if n > 0 {
      var buf' := Overlay(buf, at, (raw[..512] + stale)[off..off + Chunk(numBytes)]);
      PassesKeepPrefix(raw[512..], n - 1, stale, buf', at + (512 - off),
                       BytesLeft(numBytes, off), 0, i);
    }
  }

  /** Bytes past what the fetched sectors cover keep their old contents. */
  lemma {:induction false} PassesKeepTail<T>(raw: seq<T>, n: nat, stale: seq<T>, buf: seq<T>, at: nat, numBytes: nat, i: nat)
    requires |raw| == 512 * n && |stale| == 512 && at + 512 * n <= i < at + numBytes <= |buf|
    ensures Assemble(raw, n, stale, buf, at, numBytes, 0)[i] == buf[i]
    decreases n
  {
    if n > 0 {
      var buf' := Overlay(buf, at, (raw[..512] + stale)[0..512]);
      PassesKeepTail(raw[512..], n - 1, stale, buf', at + 512, numBytes - 512, i);
    }
  }

  /** A request that needs one more sector than is fetched ends in a byte that never came from the disk. */
  lemma UncoveredInOnePass<T>(raw: seq<T>, stale: seq<T>, buf: seq<T>, count: nat, off: nat)
    requires |raw| == |stale| == 512 && off < 512 && 0 < count <= 512 && count <= |buf| && off + count > 512
    ensures Assemble(raw, 1, stale, buf, 0, count, off)[count - 1] == stale[off + count - 513]
  {
    var once := Overlay(buf, 0, (raw[..512] + stale)[off..off + count]);
    assert Assemble(raw, 1, stale, buf, 0, count, off) == once;
    assert once[count - 1] == (raw + stale)[off + count - 1];
  }

  lemma UncoveredInManyPasses<T>(raw: seq<T>, n: nat, stale: seq<T>, buf: seq<T>, count: nat, off: nat)
    requires n > 1 && |raw| == 512 * n && |stale| == 512 && off < 512
    requires 512 * (n - 1) < count <= |buf| && off + count > 512 * n
    ensures Assemble(raw, n, stale, buf, 0, count, off)[count - 1] == buf[count - 1]
  {
    var buf' := Overlay(buf, 0, (raw[..512] + stale)[off..off + 512]);
    assert count - 1 >= 512 && buf'[count - 1] == buf[count - 1];
    AssemblePass(raw, n, stale, buf, 0, count, off);
    PassesKeepTail(raw[512..], n - 1, stale, buf', 512 - off, count - (512 - off), count - 1);
  }

  /** From the wrong cursor the first byte delivered belongs to another block. */
  lemma FirstByte(disk: Disk, stale: seq<Byte>, buf: seq<Byte>, c: Chs, off: nat, count: nat)
    requires |stale| == 512 && off < 512 && 0 < count <= |buf|
    requires ReadAt(disk, stale, buf, c, off, count).Some?
    ensures BiosRead(disk, Carry(c)).Some?
    ensures ReadAt(disk, stale, buf, c, off, count).value[0] == BiosRead(disk, Carry(c)).value[off]
  {
    var n := SectorCount(count);
    var raw := Fetch(disk, c, n).value;
    var buf' := Overlay(buf, 0, (raw[..512] + stale)[off..off + Chunk(count)]);
    PassesKeepPrefix(raw[512..], n - 1, stale, buf', 512 - off, BytesLeft(count, off), 0, 0);
    assert raw[..512] == BiosRead(disk, Carry(c)).value;
  }

  lemma LastByte(disk: Disk, stale: seq<Byte>, buf: seq<Byte>, c: Chs, off: nat, count: nat)
    requires |stale| == 512 && off < 512 && 0 < count == |buf| && off + count > 512 * SectorCount(count)
    requires ReadAt(disk, stale, buf, c, off, count).Some?
    ensures ReadAt(disk, stale, buf, c, off, count).value[count - 1] in [stale[(off + count - 1) % 512], buf[count - 1]]
  {
    var n := SectorCount(count);
    var raw := Fetch(disk, c, n).value;
    if n == 1 {
      UncoveredInOnePass(raw, stale, buf, count, off);
    } else {
      UncoveredInManyPasses(raw, n, stale, buf, count, off);
    }
  }

  /** A disk that is zero except for a one at `pos`. */
  function OneAt(pos: nat): Disk {
    seq(1474560, i => if i == pos then 1 else 0)
  }

  lemma BadStartIsWrong(pos: nat, count: nat)
    requires 0 < count && pos + count <= 1474560 && (pos / 512 + 1) % 18 == 0
    ensures DeviceRead(OneAt(pos), Fill<Byte>(512, 0), Fill<Byte>(count, 0), pos, count)
            != Some(OneAt(pos)[pos..pos + count])
  {
    var l, off := pos / 512, pos % 512;
    StartExactIff(l);
    var c := LbaToChs(l, 2, 18);
    OtherSideIsZero(pos, c, l, off);
    if ReadAt(OneAt(pos), Fill<Byte>(512, 0), Fill<Byte>(count, 0), c, off, count).Some? {
      FirstByte(OneAt(pos), Fill<Byte>(512, 0), Fill<Byte>(count, 0), c, off, count);
      assert OneAt(pos)[pos..pos + count][0] == 1;
    }
  }

  lemma OtherSideIsZero(pos: nat, c: Chs, l: nat, off: nat)
    requires pos == l * 512 + off && off < 512 && l < 2880 && c == Chs(l / 36, 1 - l / 18 % 2, 18)
    ensures BiosRead(OneAt(pos), Carry(c)).Some? && BiosRead(OneAt(pos), Carry(c)).value[off] == 0
  {
    var k := (c.cylinder * 2 + c.head) * 18 + 17;
    assert k != l;
    assert BiosRead(OneAt(pos), c) == Some(OneAt(pos)[k * 512..k * 512 + 512]);
  }

  lemma BadSpanIsWrong(pos: nat, count: nat)
    requires 0 < count && pos + count <= 1474560 && pos % 512 + count > 512 * SectorCount(count)
    ensures DeviceRead(Fill<Byte>(1474560, 0), Fill<Byte>(512, 1), Fill<Byte>(count, 1), pos, count)
            != Some(Fill<Byte>(1474560, 0)[pos..pos + count])
  {
    var c := LbaToChs(pos / 512, 2, 18);
    BadSpanFrom(c, pos, pos % 512, count);
  }

  lemma BadSpanFrom(c: Chs, pos: nat, off: nat, count: nat)
    requires 0 < count && pos + count <= 1474560 && off < 512 && off + count > 512 * SectorCount(count)
    ensures ReadAt(Fill<Byte>(1474560, 0), Fill<Byte>(512, 1), Fill<Byte>(count, 1), c, off, count)
            != Some(Fill<Byte>(1474560, 0)[pos..pos + count])
  {
    var disk: Disk := Fill<Byte>(1474560, 0);
    if ReadAt(disk, Fill<Byte>(512, 1), Fill<Byte>(count, 1), c, off, count).Some? {
      LastByte(disk, Fill<Byte>(512, 1), Fill<Byte>(count, 1), c, off, count);
      assert disk[pos..pos + count][count - 1] == 0;
    }
  }

  /** Reading is a slice of the flat image for every disk, every stale stack and every old
      buffer if and only if the request is exact. */
  lemma ReadIsFlatIff(pos: nat, count: nat)
    requires pos + count <= 1474560
    ensures ExactRequest(pos, count) <==>
            forall disk: Disk, stale: seq<Byte>, buf: seq<Byte> | |stale| == 512 && |buf| == count ::
              DeviceRead(disk, stale, buf, pos, count) == Some(disk[pos..pos + count])
  {
    if ExactRequest(pos, count) {
      forall disk: Disk, stale: seq<Byte>, buf: seq<Byte> | |stale| == 512 && |buf| == count
        ensures DeviceRead(disk, stale, buf, pos, count) == Some(disk[pos..pos + count])
      {
        ExactRequestReadsSlice(disk, stale, buf, pos, count);
        assert Overlay(buf, 0, disk[pos..pos + count]) == disk[pos..pos + count];
      }
    } else if (pos / 512 + 1) % 18 == 0 {
      BadStartIsWrong(pos, count);
    } else {
      BadSpanIsWrong(pos, count);
    }
  }
}
