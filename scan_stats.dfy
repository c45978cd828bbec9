/**
 * The counters a scan keeps: platforms, roms and firmware scanned, added
 * and given metadata.  A counter is raised by one in place, and the
 * counters of one scan are added into another's in place.
 */
module ScanStatsModel {
  import opened Wrappers

  datatype Counter =
    | ScannedPlatforms | AddedPlatforms | MetadataPlatforms
    | ScannedRoms | AddedRoms | MetadataRoms
    | ScannedFirmware | AddedFirmware

  /** The eight counters as a value. */
  datatype Counts = Counts(
    scannedPlatforms: int, addedPlatforms: int, metadataPlatforms: int,
    scannedRoms: int, addedRoms: int, metadataRoms: int,
    scannedFirmware: int, addedFirmware: int)

  const Zero := Counts(0, 0, 0, 0, 0, 0, 0, 0)

  function CountOf(c: Counts, k: Counter): int {
    match k
    case ScannedPlatforms => c.scannedPlatforms
    case AddedPlatforms => c.addedPlatforms
    case MetadataPlatforms => c.metadataPlatforms
    case ScannedRoms => c.scannedRoms
    case AddedRoms => c.addedRoms
    case MetadataRoms => c.metadataRoms
    case ScannedFirmware => c.scannedFirmware
    case AddedFirmware => c.addedFirmware
  }

  /** The counters with one of them raised by one, and every other as it was. */
  function Bump(c: Counts, k: Counter): (r: Counts)
    ensures forall j :: CountOf(r, j) == CountOf(c, j) + (if j == k then 1 else 0)
  {
    match k
    case ScannedPlatforms => c.(scannedPlatforms := c.scannedPlatforms + 1)
    case AddedPlatforms => c.(addedPlatforms := c.addedPlatforms + 1)
    case MetadataPlatforms => c.(metadataPlatforms := c.metadataPlatforms + 1)
    case ScannedRoms => c.(scannedRoms := c.scannedRoms + 1)
    case AddedRoms => c.(addedRoms := c.addedRoms + 1)
    case MetadataRoms => c.(metadataRoms := c.metadataRoms + 1)
    case ScannedFirmware => c.(scannedFirmware := c.scannedFirmware + 1)
    case AddedFirmware => c.(addedFirmware := c.addedFirmware + 1)
  }

  /** Field-wise sum. */
  function Plus(a: Counts, b: Counts): (r: Counts)
    ensures forall k :: CountOf(r, k) == CountOf(a, k) + CountOf(b, k)
  {
    Counts(
      a.scannedPlatforms + b.scannedPlatforms, a.addedPlatforms + b.addedPlatforms,
      a.metadataPlatforms + b.metadataPlatforms, a.scannedRoms + b.scannedRoms,
      a.addedRoms + b.addedRoms, a.metadataRoms + b.metadataRoms,
      a.scannedFirmware + b.scannedFirmware, a.addedFirmware + b.addedFirmware)
  }

  /** Two values with the same eight counts are the same value. */
  lemma CountsExtensional(a: Counts, b: Counts)
    requires forall k :: CountOf(a, k) == CountOf(b, k)
    ensures a == b
  {
    assert CountOf(a, ScannedPlatforms) == CountOf(b, ScannedPlatforms);
    assert CountOf(a, AddedPlatforms) == CountOf(b, AddedPlatforms);
    assert CountOf(a, MetadataPlatforms) == CountOf(b, MetadataPlatforms);
    assert CountOf(a, ScannedRoms) == CountOf(b, ScannedRoms);
    assert CountOf(a, AddedRoms) == CountOf(b, AddedRoms);
    assert CountOf(a, MetadataRoms) == CountOf(b, MetadataRoms);
    assert CountOf(a, ScannedFirmware) == CountOf(b, ScannedFirmware);
    assert CountOf(a, AddedFirmware) == CountOf(b, AddedFirmware);
  }

  /** Merging the stats of scans does not depend on their order or grouping, and an empty scan adds nothing. */
  lemma PlusLaws(a: Counts, b: Counts, c: Counts)
    ensures Plus(a, b) == Plus(b, a)
    ensures Plus(Plus(a, b), c) == Plus(a, Plus(b, c))
    ensures Plus(a, Zero) == a
  {
  }

  /** Raising counters one by one is adding them: raising `k` is adding a value that counts one `k`. */
  lemma BumpIsPlusOne(c: Counts, k: Counter)
    ensures Bump(c, k) == Plus(c, Bump(Zero, k))
  {
    CountsExtensional(Bump(c, k), Plus(c, Bump(Zero, k)));
  }

  /** What `+=` raises when the right side is not scan stats. */
  datatype ScanStatsError = NotImplementedError

  class ScanStats {
    var scannedPlatforms: int
    var addedPlatforms: int
    var metadataPlatforms: int
    var scannedRoms: int
    var addedRoms: int
    var metadataRoms: int
    var scannedFirmware: int
    var addedFirmware: int

    function Snapshot(): Counts
      reads this
    {
      Counts(scannedPlatforms, addedPlatforms, metadataPlatforms, scannedRoms,
        addedRoms, metadataRoms, scannedFirmware, addedFirmware)
    }

    /** `ScanStats()`: every counter 0. */
    constructor ()
      ensures Snapshot() == Zero
    {
      scannedPlatforms, addedPlatforms, metadataPlatforms := 0, 0, 0;
      scannedRoms, addedRoms, metadataRoms := 0, 0, 0;
      scannedFirmware, addedFirmware := 0, 0;
    }

    /** `ScanStats(scanned_platforms=..., ...)`: the counters given. */
    constructor WithCounts(c: Counts)
      ensures Snapshot() == c
    {
      scannedPlatforms, addedPlatforms, metadataPlatforms := c.scannedPlatforms, c.addedPlatforms, c.metadataPlatforms;
      scannedRoms, addedRoms, metadataRoms := c.scannedRoms, c.addedRoms, c.metadataRoms;
      scannedFirmware, addedFirmware := c.scannedFirmware, c.addedFirmware;
    }

    /** `stats.<counter> += 1`. */
    method Increment(k: Counter)
      modifies this
      ensures Snapshot() == Bump(old(Snapshot()), k)
    {
      match k
      case ScannedPlatforms => scannedPlatforms := scannedPlatforms + 1;
      case AddedPlatforms => addedPlatforms := addedPlatforms + 1;
      case MetadataPlatforms => metadataPlatforms := metadataPlatforms + 1;
      case ScannedRoms => scannedRoms := scannedRoms + 1;
      case AddedRoms => addedRoms := addedRoms + 1;
      case MetadataRoms => metadataRoms := metadataRoms + 1;
      case ScannedFirmware => scannedFirmware := scannedFirmware + 1;
      case AddedFirmware => addedFirmware := addedFirmware + 1;
    }

    /**
     * `stats += other`: with scan stats on the right, every counter of
     * `other` is added to this one's (also when `other` is this object);
     * anything else raises and changes nothing.
     */
    method AddAssign(other: Operand) returns (r: Result<(), ScanStatsError>)
      modifies this
      ensures other.Stats? ==> r.Success? && Snapshot() == Plus(old(Snapshot()), old(other.stats.Snapshot()))
      ensures other.NonStats? ==> r == Failure(NotImplementedError) && Snapshot() == old(Snapshot())
    {
      if other.NonStats? {
        return Failure(NotImplementedError);
      }
      var o := other.stats.Snapshot();
      scannedPlatforms := scannedPlatforms + o.scannedPlatforms;
      addedPlatforms := addedPlatforms + o.addedPlatforms;
      metadataPlatforms := metadataPlatforms + o.metadataPlatforms;
      scannedRoms := scannedRoms + o.scannedRoms;
      addedRoms := addedRoms + o.addedRoms;
      metadataRoms := metadataRoms + o.metadataRoms;
      scannedFirmware := scannedFirmware + o.scannedFirmware;
      addedFirmware := addedFirmware + o.addedFirmware;
      r := Success(());
    }
  }

  /** The right side of `+=`: scan stats, or a value of another type. */
  datatype Operand = Stats(stats: ScanStats) | NonStats

  /** The first stats test: new stats are zero, and each `+= 1` raises its own counter. */
  method IncrementScenario() returns (initial: Counts, bumped: Counts)
    ensures initial == Zero
    ensures bumped == Counts(1, 1, 1, 1, 1, 1, 1, 1)
  {
    var stats := new ScanStats();
    initial := stats.Snapshot();
    stats.Increment(ScannedPlatforms);
    stats.Increment(AddedPlatforms);
    assert stats.Snapshot() == Counts(1, 1, 0, 0, 0, 0, 0, 0);
    stats.Increment(MetadataPlatforms);
    stats.Increment(ScannedRoms);
    assert stats.Snapshot() == Counts(1, 1, 1, 1, 0, 0, 0, 0);
    stats.Increment(AddedRoms);
    stats.Increment(MetadataRoms);
    assert stats.Snapshot() == Counts(1, 1, 1, 1, 1, 1, 0, 0);
    stats.Increment(ScannedFirmware);
    stats.Increment(AddedFirmware);
    bumped := stats.Snapshot();
  }

  /** The second stats test: merging adds field-wise, and a dict on the right raises. */
  method MergeScenario() returns (merged: Counts, rejected: Result<(), ScanStatsError>)
    ensures merged == Counts(11, 13, 15, 17, 19, 21, 23, 25)
    ensures rejected == Failure(NotImplementedError)
  {
    var first := new ScanStats.WithCounts(Counts(1, 2, 3, 4, 5, 6, 7, 8));
    var second := new ScanStats.WithCounts(Counts(10, 11, 12, 13, 14, 15, 16, 17));
    var ok := first.AddAssign(Stats(second));
    merged := first.Snapshot();
    rejected := first.AddAssign(NonStats);
  }
}
