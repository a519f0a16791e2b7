/** First-boot growth of the ROOT partition: what the geometry checks imply, and the order of
    effects that keeps the completion record truthful. */
module RootGrowth {
  import opened Options

  const MAX_TRAILING_BYTES := 16 * 1024 * 1024

  /** A number as sfdisk's JSON gives it; None is anything but an integer. */
  type Field = Option<int>

  datatype Partition = Partition(node: string, start: Field, size: Field, kind: string, bootable: bool)

  datatype Table = Table(
    scheme: string, unit: string, device: string, sectorSize: Field, partitions: seq<Partition>)

  /** A partition with its numbers checked: both ends included. */
  datatype Entry = Entry(partition: Partition, start: int, size: int, end: int)

  datatype Plan = Plan(
    disk: string,
    rootPartition: string,
    sectorSize: int,
    startSector: int,
    partitionSectors: int,
    endSector: int,
    finalUsableSector: int,
    trailingBytes: int,
    others: seq<Partition>
  )

  datatype Analysis = Planned(plan: Plan) | Rejected(reason: string)

  /** What the expansion needs to know about the machine: its path resolution and the size of
      the boot device. */
  datatype Machine = Machine(resolve: string -> string, root: string, deviceBytes: int)

  predicate Natural(f: Field) {
    f.Some? && f.value >= 0
  }

  predicate Sized(p: Partition) {
    Natural(p.start) && Natural(p.size) && p.size.value > 0
  }

  function Last(p: Partition): int
    requires Sized(p)
  {
    p.start.value + p.size.value - 1
  }

  predicate IsRoot(p: Partition, m: Machine) {
    m.resolve(p.node) == m.resolve(m.root)
  }

  /** The layouts the expansion accepts, with `r` the index of ROOT. */
  predicate Acceptable(t: Table, m: Machine, r: nat) {
    && t.scheme == "dos" && t.unit == "sectors" && |t.partitions| == 2 && r < 2
    && Natural(t.sectorSize) && t.sectorSize.value > 0 && m.deviceBytes >= t.sectorSize.value
    && Sized(t.partitions[0]) && Sized(t.partitions[1])
    && IsRoot(t.partitions[r], m) && !IsRoot(t.partitions[1 - r], m)
    && Last(t.partitions[r]) >= Last(t.partitions[1 - r])
    && Last(t.partitions[r]) <= m.deviceBytes / t.sectorSize.value - 1
  }

  function PlanOf(t: Table, m: Machine, r: nat): Plan
    requires Acceptable(t, m, r)
  {
    var root := t.partitions[r];
    var usable := m.deviceBytes / t.sectorSize.value - 1;
    Plan(t.device, root.node, t.sectorSize.value, root.start.value, root.size.value, Last(root), usable,
         (usable - Last(root)) * t.sectorSize.value, [t.partitions[1 - r]])
  }

  /** The last whole sector of the device. */
  predicate FinalSector(sector: int, sectorSize: int, deviceBytes: int) {
    (sector + 1) * sectorSize <= deviceBytes < (sector + 2) * sectorSize
  }

  /** What a plan says: where ROOT begins and ends, in whose table, and how many bytes of whole
      sectors lie behind it. */
  lemma {:induction false} PlanMeans(t: Table, m: Machine, r: nat)
    requires Acceptable(t, m, r)
    ensures var p, root := PlanOf(t, m, r), t.partitions[r];
      && p.disk == t.device && m.resolve(p.rootPartition) == m.resolve(m.root)
      && Some(p.startSector) == root.start && Some(p.partitionSectors) == root.size
      && Some(p.sectorSize) == t.sectorSize
      && p.startSector + p.partitionSectors == p.endSector + 1
      && FinalSector(p.finalUsableSector, p.sectorSize, m.deviceBytes)
      && p.endSector * p.sectorSize + p.trailingBytes == p.finalUsableSector * p.sectorSize && p.trailingBytes >= 0
      && p.others == [t.partitions[1 - r]]
  {
    var p := PlanOf(t, m, r);
    var gap := p.finalUsableSector - p.endSector;
    assert gap * p.sectorSize == p.finalUsableSector * p.sectorSize - p.endSector * p.sectorSize;
    WholeSectors(m.deviceBytes, p.sectorSize);
  }

  lemma {:induction false} WholeSectors(deviceBytes: int, sectorSize: int)
    requires sectorSize > 0
    ensures FinalSector(deviceBytes / sectorSize - 1, sectorSize, deviceBytes)
  {
  }

  method AnalyzePartitionTable(t: Table, m: Machine) returns (a: Analysis)
    ensures a.Planned? <==> exists r :: Acceptable(t, m, r)
    ensures a.Planned? ==> exists r :: Acceptable(t, m, r) && a.plan == PlanOf(t, m, r)
  {
    if t.scheme != "dos" {
      return Rejected("boot device must use the expected MBR partition table");
    }
    if t.unit != "sectors" {
      return Rejected("partition table must report sector units");
    }
    if |t.partitions| != 2 {
      return Rejected("ROOT must be the final partition in an exact BOOT/ROOT layout");
    }
    if !Natural(t.sectorSize) || t.sectorSize.value == 0 || m.deviceBytes < t.sectorSize.value {
      return Rejected("sector or device size is invalid");
    }
    var entries: seq<Entry> := [];
    for i := 0 to |t.partitions|
      invariant |entries| == i
      invariant forall k :: 0 <= k < i ==>
        && Sized(t.partitions[k])
        && entries[k] == Entry(t.partitions[k], t.partitions[k].start.value, t.partitions[k].size.value,
                               Last(t.partitions[k]))
    {
      var p := t.partitions[i];
      if !Natural(p.start) || !Natural(p.size) || p.size.value == 0 {
        return Rejected("invalid partition");
      }
      entries := entries + [Entry(p, p.start.value, p.size.value, p.start.value + p.size.value - 1)];
    }
    var first, second := IsRoot(entries[0].partition, m), IsRoot(entries[1].partition, m);
    if first == second {
      return Rejected("ROOT partition is not uniquely present in the partition table");
    }
    var r := if first then 0 else 1;
    var root, other := entries[r], entries[1 - r];
    if root.end < other.end {
      return Rejected("ROOT must be the final partition");
    }
    var usable := m.deviceBytes / t.sectorSize.value - 1;
    if root.end > usable {
      return Rejected("ROOT extends beyond the physical boot device");
    }
    assert Acceptable(t, m, r);
    a := Planned(PlanOf(t, m, r));
  }

  /** `verify_expanded_geometry` raises nothing. */
  predicate Expanded(before: Plan, after: Plan) {
    && after.disk == before.disk
    && after.rootPartition == before.rootPartition
    && after.startSector == before.startSector
    && after.endSector >= before.endSector
    && after.finalUsableSector == before.finalUsableSector
    && after.others == before.others
    && after.trailingBytes <= MAX_TRAILING_BYTES
  }

  /** `verify_filesystem_size` raises nothing. */
  predicate Filled(partitionBytes: int, filesystemBytes: int) {
    filesystemBytes <= partitionBytes && partitionBytes - filesystemBytes <= MAX_TRAILING_BYTES
  }

  predicate Disjoint(t: Table)
    requires |t.partitions| == 2 && Sized(t.partitions[0]) && Sized(t.partitions[1])
  {
    Last(t.partitions[0]) < t.partitions[1].start.value || Last(t.partitions[1]) < t.partitions[0].start.value
  }

  predicate NearlyFull(p: Plan, filesystemBytes: int, m: Machine) {
    0 <= m.deviceBytes - (p.startSector * p.sectorSize + filesystemBytes) <= 2 * MAX_TRAILING_BYTES + p.sectorSize - 1
  }

  /** The unused bytes behind the filesystem are at most the two allowances and a part sector. */
  lemma {:induction false} NearlyAllIsUsed(t: Table, m: Machine, r: nat, filesystemBytes: int)
    requires Acceptable(t, m, r)
    requires PlanOf(t, m, r).trailingBytes <= MAX_TRAILING_BYTES
    requires Filled(PlanOf(t, m, r).partitionSectors * t.sectorSize.value, filesystemBytes)
    ensures NearlyFull(PlanOf(t, m, r), filesystemBytes, m)
  {
    var p := PlanOf(t, m, r);
    TrailingBytes(m.deviceBytes, p.sectorSize, p.startSector, p.partitionSectors, p.finalUsableSector, filesystemBytes);
  }

  lemma {:induction false} TrailingBytes(
      device: int, sector: int, start: int, size: int, usable: int, filesystem: int)
    requires sector > 0 && device >= 0 && usable == device / sector - 1 && start + size - 1 <= usable
    requires (usable - (start + size - 1)) * sector <= MAX_TRAILING_BYTES
    requires filesystem <= size * sector && size * sector - filesystem <= MAX_TRAILING_BYTES
    ensures 0 <= device - (start * sector + filesystem) <= 2 * MAX_TRAILING_BYTES + sector - 1
  {
    var gap := usable - (start + size - 1);
    var quotient := device / sector;
    assert quotient == start + size + gap;
    assert quotient * sector == start * sector + size * sector + gap * sector;
    assert device == quotient * sector + device % sector;
    assert gap * sector >= 0;
  }

  /** BOOT and the start of ROOT stay, and disjoint partitions stay disjoint. */
  lemma {:induction false} ExpansionKeepsLayout(before: Table, after: Table, m: Machine, r: nat, r': nat)
    requires Acceptable(before, m, r) && Acceptable(after, m, r')
    requires Expanded(PlanOf(before, m, r), PlanOf(after, m, r'))
    ensures after.partitions[1 - r'] == before.partitions[1 - r]
    ensures after.partitions[r'].start == before.partitions[r].start
    ensures Disjoint(before) ==> Disjoint(after)
  {
    assert PlanOf(after, m, r').others[0] == PlanOf(before, m, r).others[0];
  }

  // ---------------------------------------------------------------------------------------
  // The order of effects

  datatype Record = Record(
    disk: string,
    rootPartition: string,
    startSector: int,
    endSector: int,
    finalUsableSector: int,
    trailingBytes: int,
    filesystemBytes: int
  )

  /** What survives a power cut. */
  datatype Disk = Disk(table: Table, filesystemBytes: int, completion: Option<Record>)

  function RecordOf(p: Plan, filesystemBytes: int): Record {
    Record(p.disk, p.rootPartition, p.startSector, p.endSector, p.finalUsableSector, p.trailingBytes, filesystemBytes)
  }

  /** The record describes this very disk, and its geometry was verified. */
  ghost predicate Truthful(d: Disk, m: Machine) {
    d.completion.Some? ==>
      exists r :: Acceptable(d.table, m, r) && Verified(d, m, r)
  }

  predicate Verified(d: Disk, m: Machine, r: nat)
    requires Acceptable(d.table, m, r)
  {
    var p := PlanOf(d.table, m, r);
    && d.completion == Some(RecordOf(p, d.filesystemBytes))
    && p.trailingBytes <= MAX_TRAILING_BYTES
    && Filled(p.partitionSectors * p.sectorSize, d.filesystemBytes)
  }

  /** The record's fields are the table's and the filesystem's own. */
  predicate Describes(record: Record, d: Disk, m: Machine, r: nat)
    requires Acceptable(d.table, m, r)
  {
    var root, sectorSize := d.table.partitions[r], d.table.sectorSize.value;
    && record.disk == d.table.device && record.rootPartition == root.node
    && Some(record.startSector) == root.start
    && record.endSector - record.startSector + 1 == root.size.value
    && FinalSector(record.finalUsableSector, sectorSize, m.deviceBytes)
    && record.trailingBytes == (record.finalUsableSector - record.endSector) * sectorSize
    && 0 <= record.trailingBytes <= 16 * 1024 * 1024
    && record.filesystemBytes == d.filesystemBytes
    && 0 <= root.size.value * sectorSize - d.filesystemBytes <= 16 * 1024 * 1024
  }

  /** A record that survives describes the disk it is found on. */
  lemma {:induction false} TruthfulMeans(d: Disk, m: Machine)
    requires Truthful(d, m) && d.completion.Some?
    ensures exists r :: Acceptable(d.table, m, r) && Describes(d.completion.value, d, m, r)
  {
    var r :| Acceptable(d.table, m, r) && Verified(d, m, r);
    PlanMeans(d.table, m, r);
    assert Describes(d.completion.value, d, m, r);
  }

  /** What a completed expansion means for the owner of the device. */
  ghost predicate Grown(before: Table, now: Disk, m: Machine, r: nat, r': nat) {
    && Acceptable(before, m, r) && Acceptable(now.table, m, r')
    && now.table.device == before.device && now.table.partitions[r'].node == before.partitions[r].node
    && now.table.partitions[1 - r'] == before.partitions[1 - r]
    && now.table.partitions[r'].start == before.partitions[r].start
    && Last(now.table.partitions[r']) >= Last(before.partitions[r])
    && (Disjoint(before) ==> Disjoint(now.table))
    && Verified(now, m, r')
    && now.completion.Some? && Describes(now.completion.value, now, m, r')
    && NearlyFull(PlanOf(now.table, m, r'), now.filesystemBytes, m)
  }

  lemma {:induction false} ExpandedIsGrown(before: Table, now: Disk, m: Machine, p: Plan, r: nat)
    requires Acceptable(before, m, r) && p == PlanOf(before, m, r)
    requires exists r' :: Acceptable(now.table, m, r') && Verified(now, m, r') && Expanded(p, PlanOf(now.table, m, r'))
    ensures exists r' :: Grown(before, now, m, r, r')
  {
    var r' :| Acceptable(now.table, m, r') && Verified(now, m, r') && Expanded(p, PlanOf(now.table, m, r'));
    ExpansionKeepsLayout(before, now.table, m, r, r');
    NearlyAllIsUsed(now.table, m, r', now.filesystemBytes);
    PlanMeans(now.table, m, r');
    assert Grown(before, now, m, r, r');
  }

  /** growpart is called only if more than the allowance is unused. */
  function AfterGrowth(before: Table, grown: Table, m: Machine, r: nat): Table
    requires Acceptable(before, m, r)
  {
    if PlanOf(before, m, r).trailingBytes > MAX_TRAILING_BYTES then grown else before
  }

  /** The geometry after the growth and the filesystem's size pass their checks. */
  ghost predicate Passes(before: Plan, after: Table, resized: int, m: Machine) {
    exists r :: Acceptable(after, m, r) && PassesAs(before, PlanOf(after, m, r), resized)
  }

  predicate PassesAs(before: Plan, after: Plan, resized: int) {
    Expanded(before, after) && Filled(after.partitionSectors * after.sectorSize, resized)
  }

  /** The table is acceptable, and what the tools leave passes the checks. */
  ghost predicate Expandable(before: Table, grown: Table, resized: int, m: Machine) {
    exists r :: Acceptable(before, m, r) && Passes(PlanOf(before, m, r), AfterGrowth(before, grown, m, r), resized, m)
  }

  lemma {:induction false} RootIsUnique(t: Table, m: Machine, r: nat, r': nat)
    requires Acceptable(t, m, r) && Acceptable(t, m, r')
    ensures r == r'
  {
  }

  lemma {:induction false} ExpandableIff(before: Table, grown: Table, resized: int, m: Machine, r: nat)
    requires Acceptable(before, m, r)
    ensures Expandable(before, grown, resized, m) <==>
      Passes(PlanOf(before, m, r), AfterGrowth(before, grown, m, r), resized, m)
  {
    forall r' | Acceptable(before, m, r')
      ensures r' == r
    {
      RootIsUnique(before, m, r, r');
    }
  }

  lemma {:induction false} PassesIff(before: Plan, after: Table, resized: int, m: Machine, r: nat)
    requires Acceptable(after, m, r)
    ensures Passes(before, after, resized, m) <==> PassesAs(before, PlanOf(after, m, r), resized)
  {
    forall r' | Acceptable(after, m, r')
      ensures r' == r
    {
      RootIsUnique(after, m, r, r');
    }
  }

  /** ROOT stretched to the last whole sector. */
  function Stretched(t: Table, m: Machine, r: nat): Table
    requires Acceptable(t, m, r)
  {
    var root := t.partitions[r];
    var size := m.deviceBytes / t.sectorSize.value - root.start.value;
    t.(partitions := t.partitions[r := root.(size := Some(size))])
  }

  /** Whatever acceptable table the device has, tools that stretch ROOT and fill it satisfy every
      check, and so does a filesystem that fills a ROOT which needs no growth. */
  lemma {:induction false} StretchingPasses(t: Table, m: Machine, r: nat)
    requires Acceptable(t, m, r)
    ensures var grown := AfterGrowth(t, Stretched(t, m, r), m, r);
      && |grown.partitions| == 2 && Sized(grown.partitions[r])
      && Expandable(t, Stretched(t, m, r), grown.partitions[r].size.value * t.sectorSize.value, m)
  {
    var grown := AfterGrowth(t, Stretched(t, m, r), m, r);
    assert Acceptable(grown, m, r);
    assert PassesAs(PlanOf(t, m, r), PlanOf(grown, m, r), grown.partitions[r].size.value * t.sectorSize.value);
  }

  class Expansion {
    const machine: Machine
    var disk: Disk
    ghost var journal: seq<Disk>
    ghost var faults: nat

    constructor (machine: Machine, disk: Disk)
      ensures this.machine == machine && this.disk == disk && journal == [] && faults == 0
    {
      this.machine, this.disk, journal, faults := machine, disk, [], 0;
    }

    /** Every state since the run began is the untouched initial one or truthful. */
    ghost predicate Honest(initial: Disk)
      reads this
    {
      && (disk == initial || Truthful(disk, machine))
      && forall k :: 0 <= k < |journal| ==> journal[k] == initial || Truthful(journal[k], machine)
    }

    /** One durable effect, recorded. */
    method Become(next: Disk, ghost initial: Disk)
      requires Honest(initial) && Truthful(next, machine)
      modifies `disk, `journal
      ensures Honest(initial) && disk == next
    {
      disk := next;
      journal := journal + [next];
    }

    /** A tool's exit code, a check of the device's identity, a removal or a replacement of a file. */
    method Succeeds() returns (ok: bool)
      modifies `faults
      ensures faults == old(faults) + if ok then 0 else 1
    {
      ok := *;
      if !ok {
        faults := faults + 1;
      }
    }

    /** `grown` and `resized` are what growpart and resize2fs leave, whether or not they report
        success. */
    method ExpandRoot(grown: Table, resized: int) returns (complete: bool)
      requires journal == []
      modifies `disk, `journal, `faults
      ensures Honest(old(disk))
      ensures complete ==> exists r, r' ::
        Grown(old(disk).table, disk, machine, r, r')
        && disk.table == AfterGrowth(old(disk).table, grown, machine, r)
      ensures complete ==> disk.filesystemBytes == resized
      ensures old(faults) <= faults
      ensures faults == old(faults) ==> (complete <==> Expandable(old(disk).table, grown, resized, machine))
    {
      complete := false;
      ghost var initial := disk;
      var unlinked := Succeeds();
      if !unlinked {
        return;
      }
      Become(disk.(completion := None), initial);
      var identified := Succeeds();
      if !identified {
        return;
      }
      var before := AnalyzePartitionTable(disk.table, machine);
      if before.Rejected? {
        return;
      }
      ghost var r :| Acceptable(disk.table, machine, r) && before.plan == PlanOf(disk.table, machine, r);
      ExpandableIff(disk.table, grown, resized, machine, r);
      var sameDisk := Succeeds();
      if !sameDisk {
        return;
      }
      if before.plan.trailingBytes > MAX_TRAILING_BYTES {
        Become(disk.(table := grown), initial);
        var settled := Succeeds();
        if !settled {
          return;
        }
      }
      complete := VerifyAndResize(before.plan, resized, initial);
      if complete {
        ExpandedIsGrown(initial.table, disk, machine, before.plan, r);
      }
    }

    /** The table is read again, and the filesystem is touched only if the geometry has passed. */
    method VerifyAndResize(before: Plan, resized: int, ghost initial: Disk) returns (complete: bool)
      requires Honest(initial) && disk.completion == None
      modifies `disk, `journal, `faults
      ensures Honest(initial) && disk.table == old(disk).table && old(faults) <= faults
      ensures complete ==> disk.filesystemBytes == resized
      ensures complete ==> exists r ::
        && Acceptable(disk.table, machine, r) && Verified(disk, machine, r)
        && Expanded(before, PlanOf(disk.table, machine, r))
      ensures faults == old(faults) ==> (complete <==> Passes(before, disk.table, resized, machine))
    {
      complete := false;
      var after := AnalyzePartitionTable(disk.table, machine);
      if after.Rejected? {
        return;
      }
      ghost var r :| Acceptable(disk.table, machine, r) && after.plan == PlanOf(disk.table, machine, r);
      PassesIff(before, disk.table, resized, machine, r);
      if !Expanded(before, after.plan) {
        return;
      }
      var stillIdentified := Succeeds();
      if !stillIdentified {
        return;
      }
      complete := ResizeAndRecord(after.plan, resized, initial);
    }

    /** The filesystem is resized and measured, and only then is the record written. */
    method ResizeAndRecord(plan: Plan, resized: int, ghost initial: Disk) returns (complete: bool)
      requires Honest(initial) && disk.completion == None && plan.trailingBytes <= MAX_TRAILING_BYTES
      requires exists r :: Acceptable(disk.table, machine, r) && plan == PlanOf(disk.table, machine, r)
      modifies `disk, `journal, `faults
      ensures Honest(initial) && disk.table == old(disk).table && old(faults) <= faults
      ensures faults == old(faults) ==>
        (complete <==> Filled(plan.partitionSectors * plan.sectorSize, resized))
      ensures complete ==> disk.filesystemBytes == resized
      ensures complete ==> exists r ::
        Acceptable(disk.table, machine, r) && Verified(disk, machine, r) && plan == PlanOf(disk.table, machine, r)
    {
      complete := false;
      Become(disk.(filesystemBytes := resized), initial);
      var identified := Succeeds();
      if !identified || !Filled(plan.partitionSectors * plan.sectorSize, disk.filesystemBytes) {
        return;
      }
      var written := Succeeds();
      if !written {
        return;
      }
      var next := disk.(completion := Some(RecordOf(plan, disk.filesystemBytes)));
      assert Truthful(next, machine) by {
        var r :| Acceptable(disk.table, machine, r) && plan == PlanOf(disk.table, machine, r);
        assert Verified(next, machine, r);
      }
      Become(next, initial);
      complete := Succeeds();
    }
  }
}
