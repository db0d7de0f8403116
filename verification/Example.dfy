/**
 A volume laid out as the Makefile's mkfs line lays it out, with init on it.
 */
module Example {
  import opened Bytes
  import opened CString
  import opened Floppy
  import opened Fat12
  import opened Chains
  import opened Loading
  import opened Directory
  import opened FatFs
  import opened Layouts
  import opened Machine
  import opened Invariant
  import opened Nesting

  /** One reserved sector, a FAT of two, 224 root entries: the data starts in sector 17. */
  const VOLUME: Volume := Volume(Bpb(512, 8, 1, 1, 224, 2), Layout(512, 1536, 8704))

  const BOOT: BootSector := BootSector(Fill<Byte>(3, 0), Fill<Byte>(8, 0), VOLUME.bpb, 2880, 0xF0, Fill<Byte>(488, 0))

  /** The volume label, and a file as mcopy leaves it. */
  const LABEL: Entry32 := Entry32(Padded([84, 69, 83, 84, 49], 8), Padded([], 3), {VolumeId}, 0, Fill<Byte>(10, 0), 0, 0, 0, 0)
  const INIT_FILE: Entry32 := Entry32(Padded([73, 78, 73, 84], 8), [66, 73, 78], {Archive}, 0, Fill<Byte>(10, 0), 0, 0, 2, 4096)

  /** The label and the file are the first directory entries, and the table ends the file's chain. */
  function InitDisk(): (d: Disk)
    ensures d[..512] == LaidBoot(BOOT) && d[515] == 0xFF && d[516] == 0x0F
    ensures d[1536..1568] == LaidEntry(LABEL) && d[1568..1600] == LaidEntry(INIT_FILE)
    ensures forall i :: 1600 <= i < 1474560 ==> d[i] == 0
  {
    Overlay(Overlay(Overlay(Overlay(Fill<Byte>(1474560, 0), 0, LaidBoot(BOOT)), 515, [0xFF, 0x0F]), 1536, LaidEntry(LABEL)),
            1568, LaidEntry(INIT_FILE))
  }

  lemma InitMounts()
    ensures ParseBoot(InitDisk()[..512]) == VOLUME.bpb && MountedVolume(InitDisk()) == VOLUME
  {
    BootSectorIsParsed(BOOT);
    assert Sections(VOLUME.bpb) == VOLUME.pos;
  }

  /** What the names are without their padding: "TEST1" and, in upper case, "init". */
  lemma NamesAreTaken()
    ensures TakeName(LABEL.name) == [84, 69, 83, 84, 49] && TakeName(INIT_FILE.name) == Upper(INIT)
  {
    UnpadIff([84, 69, 83, 84, 49], 8);
    UnpadIff([73, 78, 73, 84], 8);
    assert Upper(INIT) == [73, 78, 73, 84];
  }

  lemma InitEntries()
    ensures RootEntry(InitDisk(), VOLUME, 0) == LaidEntry(LABEL) && RootEntry(InitDisk(), VOLUME, 1) == LaidEntry(INIT_FILE)
  {
  }

  lemma OtherEntries(j: nat)
    requires 1 < j < 224
    ensures TypeOf(RootEntry(InitDisk(), VOLUME, j)) == NoEntry
  {
    assert RootEntry(InitDisk(), VOLUME, j)[0] == InitDisk()[1536 + 32 * j];
  }

  lemma InitNameReturns()
    ensures NamesReturn(LaidEntry(INIT_FILE))
  {
    var e := LaidEntry(INIT_FILE);
    FieldsOfEntry(INIT_FILE);
    assert forall i :: 0 <= i < 8 ==> e[i] == e[..8][i];
    assert forall i :: 8 <= i < 11 ==> e[i] == e[8..11][i - 8];
  }

  lemma FilesReturn(j: nat)
    requires j < 224 && TypeOf(RootEntry(InitDisk(), VOLUME, j)) == File
    ensures NamesReturn(RootEntry(InitDisk(), VOLUME, j))
  {
    InitEntries();
    if j == 0 {
      TypeOfEntry(LABEL);
      assert false;
    } else if j == 1 {
      InitNameReturns();
    } else {
      OtherEntries(j);
      assert false;
    }
  }

  lemma InitServes()
    ensures Servable(InitDisk(), VOLUME)
  {
    forall j: nat | j < 224 && TypeOf(RootEntry(InitDisk(), VOLUME, j)) == File ensures NamesReturn(RootEntry(InitDisk(), VOLUME, j)) {
      FilesReturn(j);
    }
  }

  /** Cluster 2 starts in sector 17, the last of its track: what is read starts in sector 35. */
  lemma InitIsMisread(stale: seq<Byte>)
    requires |stale| == 512
    ensures BlockRead(InitDisk(), stale, VOLUME, 2) == Some(InitDisk()[35 * 512..43 * 512])
    ensures !Readable(VOLUME, 2)
  {
    assert ClusterStart(8704, 4096, 2) == 512 * 17 && StartBlock(17) == 35;
    BlockIsFrom(InitDisk(), stale, VOLUME, 2, 17);
  }

  /** The loader's walk ends all the same. */
  lemma InitChain(stale: seq<Byte>)
    requires |stale| == 512
    ensures IsChain(EntriesOn(InitDisk(), stale, VOLUME), 2, [2])
  {
    InitIsMisread(stale);
    LastEntry(InitDisk(), stale, 512, 2);
    LastCluster(InitDisk(), stale, VOLUME, 2);
  }

  lemma LastEntry(d: Disk, stale: seq<Byte>, fatStart: nat, c: nat)
    requires |stale| == 512 && fatStart == 512 && c == 2 && d[515] == 0xFF && d[516] == 0x0F
    ensures NextCluster(d, stale, fatStart, c) == Some(0xFFF)
  {
    assert SectorCount(2) == 1 && fatStart + EntryOffset(c) == 515;
    NextClusterIsDiskEntry(d, stale, fatStart, c);
  }

  lemma LastCluster(d: Disk, stale: seq<Byte>, v: Volume, c: nat)
    requires |stale| == 512 && FitsLoader(v.bpb) && c < 0x1_0000 && v.pos.fatStart + EntryOffset(c) < 0x1_0000_0000
    requires BlockRead(d, stale, v, c).Some? && NextCluster(d, stale, v.pos.fatStart, c).Some?
    requires NextCluster(d, stale, v.pos.fatStart, c).value >= 0xFF8
    ensures IsChain(EntriesOn(d, stale, v), c, [c])
  {
  }

  /** On this volume programs nest to every depth, although the file is not read right. */
  lemma InitNests(stale: seq<Byte>, d: nat)
    requires |stale| == 512 && 1 <= d <= 8
    ensures exists cfg: Config, labels, states, n: nat ::
              ValidConfig(cfg) && Fits(cfg) && cfg.disk == InitDisk() && cfg.stale == stale && NestsAndReturns(cfg, labels, states, n, d)
  {
    var cfg := Config(0, 0, 0, 0, [0, 0, 0, 0], InitDisk(), stale, VOLUME);
    InitMounts();
    InitServes();
    FitsIff(cfg);
    assert ValidConfig(cfg);
    assert InitLoads(cfg) by { InitIsLoaded(cfg); }
    NestsIff(cfg, d);
  }

  lemma InitIsLoaded(cfg: Config)
    requires Linked(cfg) && cfg.disk == InitDisk() && cfg.vol == VOLUME
    ensures InitLoads(cfg)
  {
    var es := RootEntries(cfg.disk, cfg.vol);
    InitEntries();
    NamesAreTaken();
    MatchesEntry(LABEL, Upper(INIT));
    MatchesEntry(INIT_FILE, Upper(INIT));
    ClusterOfEntry(INIT_FILE);
    assert FirstMatch(es, Upper(INIT), 0) == Some(1);
    InitChain(cfg.stale);
    ChainExistsIff(EntriesOn(cfg.disk, cfg.stale, cfg.vol), 2, [2]);
  }
}
