/**
Rolling log files that share one directory and one disk budget. A file that would grow
past its limit is archived, and old archives are then deleted until the budget is met.
*/
module LogBudget {
  import opened Wrappers

  const MIB := 1024 * 1024
  const BUDGET := 200 * MIB
  const ROLL := 16 * MIB
  const FILES := 3
  type File = f: nat | f < FILES
  const U64_MAX := 0xFFFF_FFFF_FFFF_FFFF

  function SaturatingAdd(a: nat, b: nat): nat {
    if a + b > U64_MAX then U64_MAX else a + b
  }

  function SaturatingSub(a: nat, b: nat): nat {
    if a < b then 0 else a - b
  }

  /** An archived file; its modification time may be unknown. */
  datatype Archive = Archive(id: nat, modified: Option<nat>, bytes: nat)

  /** What is on disk: the sizes of the active files, and the archives in listing order. */
  datatype Disk = Disk(active: seq<nat>, archives: seq<Archive>)

  /** Unknown times come before all others. */
  predicate NoYounger(a: Archive, b: Archive) {
    a.modified.None? || (b.modified.Some? && a.modified.value <= b.modified.value)
  }

  function Sum(sizes: seq<nat>): nat {
    if sizes == [] then 0 else Sum(sizes[..|sizes| - 1]) + sizes[|sizes| - 1]
  }

  function Bytes(archives: seq<Archive>): nat {
    if archives == [] then 0 else archives[0].bytes + Bytes(archives[1..])
  }

  function Total(disk: Disk): nat {
    Sum(disk.active) + Bytes(disk.archives)
  }

  // ------------------------------------------------------------------ sorting

  /** Stable insertion: an archive goes before the first strictly younger one. */
  function Insert(sorted: seq<Archive>, a: Archive): seq<Archive> {
    if sorted == [] then [a]
    else if NoYounger(sorted[0], a) then [sorted[0]] + Insert(sorted[1..], a)
    else [a] + sorted
  }

  function SortByAge(archives: seq<Archive>): seq<Archive> {
    if archives == [] then []
    else Insert(SortByAge(archives[..|archives| - 1]), archives[|archives| - 1])
  }

  predicate OldestFirst(archives: seq<Archive>) {
    forall i, j :: 0 <= i < j < |archives| ==> NoYounger(archives[i], archives[j])
  }

  lemma {:induction false} InsertContents(sorted: seq<Archive>, a: Archive)
    ensures multiset(Insert(sorted, a)) == multiset(sorted) + multiset{a}
  {
    if sorted != [] && NoYounger(sorted[0], a) {
      InsertContents(sorted[1..], a);
      assert sorted == [sorted[0]] + sorted[1..];
    }
  }

  lemma {:induction false} InsertBytes(sorted: seq<Archive>, a: Archive)
    ensures Bytes(Insert(sorted, a)) == Bytes(sorted) + a.bytes
  {
    if sorted != [] {
      if NoYounger(sorted[0], a) {
        InsertBytes(sorted[1..], a);
      } else {
        assert ([a] + sorted)[1..] == sorted;
      }
    }
  }

  lemma {:induction false} InsertKeepsOrder(sorted: seq<Archive>, a: Archive)
    requires OldestFirst(sorted)
    ensures OldestFirst(Insert(sorted, a))
  {
    if sorted != [] && NoYounger(sorted[0], a) {
      InsertKeepsOrder(sorted[1..], a);
      var rest := Insert(sorted[1..], a);
      InsertContents(sorted[1..], a);
      forall i | 0 <= i < |rest|
        ensures NoYounger(sorted[0], rest[i])
      {
        assert rest[i] in multiset(rest);
      }
    }
  }

  lemma {:induction false} BytesSnoc(archives: seq<Archive>, a: Archive)
    ensures Bytes(archives + [a]) == Bytes(archives) + a.bytes
  {
    if archives != [] {
      BytesSnoc(archives[1..], a);
      assert (archives + [a])[1..] == archives[1..] + [a];
    }
  }

  /** Sorting keeps every archive and puts the oldest first. */
  lemma {:induction false} SortedByAge(archives: seq<Archive>)
    ensures OldestFirst(SortByAge(archives))
    ensures multiset(SortByAge(archives)) == multiset(archives)
    ensures Bytes(SortByAge(archives)) == Bytes(archives)
  {
    if archives != [] {
      var last := |archives| - 1;
      SortedByAge(archives[..last]);
      InsertKeepsOrder(SortByAge(archives[..last]), archives[last]);
      InsertContents(SortByAge(archives[..last]), archives[last]);
      InsertBytes(SortByAge(archives[..last]), archives[last]);
      BytesSnoc(archives[..last], archives[last]);
      assert archives == archives[..last] + [archives[last]];
    }
  }

  // ----------------------------------------------------------------- eviction

  /** The total the program computes: sums stop at the largest 64-bit number. */
  function ComputedTotal(disk: Disk): nat {
    AddArchives(AddSizes(0, disk.active), disk.archives)
  }

  function AddSizes(total: nat, sizes: seq<nat>): nat {
    if sizes == [] then total else SaturatingAdd(AddSizes(total, sizes[..|sizes| - 1]), sizes[|sizes| - 1])
  }

  function AddArchives(total: nat, archives: seq<Archive>): nat
    decreases |archives|
  {
    if archives == [] then total else AddArchives(SaturatingAdd(total, archives[0].bytes), archives[1..])
  }

  /** What is left of the archives, oldest first, when those in `stubborn` cannot be deleted. */
  function Evict(archives: seq<Archive>, total: nat, stubborn: set<nat>): seq<Archive> {
    if archives == [] || total <= BUDGET then archives
    else if archives[0].id in stubborn then [archives[0]] + Evict(archives[1..], total, stubborn)
    else Evict(archives[1..], SaturatingSub(total, archives[0].bytes), stubborn)
  }

  function Enforced(disk: Disk, stubborn: set<nat>): Disk {
    disk.(archives := Evict(SortByAge(disk.archives), ComputedTotal(disk), stubborn))
  }

  // ------------------------------------------------------------------- writes

  /** A line for one of the files, and what is known if it makes the file roll. */
  datatype Write = Write(file: File, length: nat, id: nat, modified: Option<nat>, stubborn: set<nat>)

  function Archived(disk: Disk, w: Write): Disk
    requires w.file < |disk.active|
  {
    Disk(disk.active[w.file := 0], disk.archives + [Archive(w.id, w.modified, disk.active[w.file])])
  }

  predicate Rolls(disk: Disk, w: Write)
    requires w.file < |disk.active|
  {
    disk.active[w.file] > 0 && disk.active[w.file] + w.length + 1 > ROLL
  }

  /** The disk when the line is written: rolled first if the line does not fit. */
  function Ready(disk: Disk, w: Write): Disk
    requires w.file < |disk.active|
  {
    if Rolls(disk, w) then Enforced(Archived(disk, w), w.stubborn) else disk
  }

  function Written(disk: Disk, w: Write): Disk
    requires w.file < |disk.active|
  {
    var ready := Ready(disk, w);
    ready.(active := ready.active[w.file := ready.active[w.file] + w.length + 1])
  }

  // -------------------------------------------------------------------- class

  class Logs {
    var bytes: seq<nat>   // the size each rolling file believes it has
    var disk: Disk

    /** With one writer the believed sizes are the sizes on disk. */
    ghost predicate Valid()
      reads this
    {
      |bytes| == FILES && bytes == disk.active
    }

    /** `init` and the opening of the three files. */
    constructor (found: Disk)
      requires |found.active| == FILES
      ensures Valid() && disk == Enforced(found, {})
    {
      disk := found;
      bytes := found.active;
      new;
      EnforceBudget({});
    }

    /** `enforce_log_budget`. */
    method EnforceBudget(stubborn: set<nat>)
      modifies `disk
      ensures disk == Enforced(old(disk), stubborn)
    {
      var total: nat := 0;
      for i := 0 to |disk.active|
        invariant disk == old(disk)
        invariant total == AddSizes(0, disk.active[..i])
      {
        assert disk.active[..i + 1][..i] == disk.active[..i];
        total := SaturatingAdd(total, disk.active[i]);
      }
      assert disk.active[..|disk.active|] == disk.active;
      for i := 0 to |disk.archives|
        invariant disk == old(disk)
        invariant AddArchives(total, disk.archives[i..]) == ComputedTotal(disk)
      {
        assert disk.archives[i..][1..] == disk.archives[i + 1..];
        total := SaturatingAdd(total, disk.archives[i].bytes);
      }
      var archived, kept := SortByAge(disk.archives), [];
      while archived != [] && total > BUDGET
        invariant disk == old(disk)
        invariant kept + Evict(archived, total, stubborn) == Enforced(disk, stubborn).archives
        decreases |archived|
      {
        if archived[0].id in stubborn {
          kept := kept + [archived[0]];
        } else {
          total := SaturatingSub(total, archived[0].bytes);
        }
        archived := archived[1..];
      }
      disk := disk.(archives := kept + archived);
    }

    method Rotate(w: Write)
      requires Valid()
      modifies this
      ensures Valid() && disk == Enforced(Archived(old(disk), w), w.stubborn)
    {
      disk := Archived(disk, w);
      bytes := bytes[w.file := 0];
      EnforceBudget(w.stubborn);
    }

    method WriteLine(w: Write)
      requires Valid() && w.length < U64_MAX
      modifies this
      ensures Valid() && disk == Written(old(disk), w)
    {
      var incoming := w.length + 1;
      if bytes[w.file] > 0 && SaturatingAdd(bytes[w.file], incoming) > ROLL {
        Rotate(w);
      }
      disk := disk.(active := disk.active[w.file := disk.active[w.file] + incoming]);
      bytes := bytes[w.file := SaturatingAdd(bytes[w.file], incoming)];
    }

    /** The writer thread: every record in turn. */
    method Serve(ghost found: Disk, writes: seq<Write>)
      requires Valid() && |found.active| == FILES && disk == Enforced(found, {})
      requires forall i :: 0 <= i < |writes| ==> writes[i].length < U64_MAX
      modifies this
      ensures Valid() && disk == After(found, writes, |writes|)
    {
      for i := 0 to |writes|
        invariant Valid() && disk == After(found, writes, i)
      {
        WriteLine(writes[i]);
      }
    }
  }

  // ------------------------------------------------------------------- totals

  lemma {:induction false} AddSizesSaturates(sizes: seq<nat>)
    ensures AddSizes(0, sizes) == if Sum(sizes) > U64_MAX then U64_MAX else Sum(sizes)
  {
    if sizes != [] {
      AddSizesSaturates(sizes[..|sizes| - 1]);
    }
  }

  lemma {:induction false} AddArchivesSaturates(total: nat, archives: seq<Archive>)
    requires total <= U64_MAX
    ensures AddArchives(total, archives)
      == if total + Bytes(archives) > U64_MAX then U64_MAX else total + Bytes(archives)
    decreases |archives|
  {
    if archives != [] {
      AddArchivesSaturates(SaturatingAdd(total, archives[0].bytes), archives[1..]);
    }
  }

  lemma ComputedTotalSaturates(disk: Disk)
    ensures ComputedTotal(disk) == if Total(disk) > U64_MAX then U64_MAX else Total(disk)
  {
    AddSizesSaturates(disk.active);
    AddArchivesSaturates(AddSizes(0, disk.active), disk.archives);
  }

  // ------------------------------------------------------- which archives go

  /** Deleting the first `k` archives is enough, or leaves none to delete. */
  predicate Suffices(archives: seq<Archive>, total: nat, k: nat)
    requires k <= |archives|
  {
    k == |archives| || total - Bytes(archives[..k]) <= BUDGET
  }

  /** Eviction removes the shortest sufficient prefix, given that everything can be deleted. */
  lemma {:induction false} EvictsShortestPrefix(archives: seq<Archive>, total: nat) returns (k: nat)
    requires total >= Bytes(archives)
    ensures k <= |archives| && Evict(archives, total, {}) == archives[k..]
    ensures Suffices(archives, total, k)
    ensures forall j: nat :: j < k ==> !Suffices(archives, total, j)
    decreases |archives|
  {
    if archives == [] || total <= BUDGET {
      k := 0;
    } else {
      var rest := EvictsShortestPrefix(archives[1..], total - archives[0].bytes);
      k := rest + 1;
      forall j: nat | j <= k
        ensures j > 0 ==> Suffices(archives, total, j) == Suffices(archives[1..], total - archives[0].bytes, j - 1)
      {
        if j > 0 {
          assert archives[..j][1..] == archives[1..][..j - 1];
        }
      }
    }
  }

  lemma {:induction false} BytesSplit(archives: seq<Archive>, k: nat)
    requires k <= |archives|
    ensures Bytes(archives) == Bytes(archives[..k]) + Bytes(archives[k..])
  {
    if k > 0 {
      BytesSplit(archives[1..], k - 1);
      assert archives[..k][1..] == archives[1..][..k - 1];
    }
  }

  /**
  Enforcement keeps the youngest archives: it removes the shortest oldest-first prefix that
  meets the budget, or every archive.
  */
  lemma EnforcementEvictsOldest(disk: Disk) returns (sorted: seq<Archive>, k: nat)
    requires Total(disk) <= U64_MAX
    ensures OldestFirst(sorted) && multiset(sorted) == multiset(disk.archives)
    ensures k <= |sorted| && Enforced(disk, {}).archives == sorted[k..]
    ensures Suffices(sorted, Total(disk), k) && forall j: nat :: j < k ==> !Suffices(sorted, Total(disk), j)
    ensures Total(Enforced(disk, {})) == Total(disk) - Bytes(sorted[..k])
    ensures forall i, j :: 0 <= i < k <= j < |sorted| && sorted[i].modified.Some? ==>
      sorted[j].modified.Some? && sorted[i].modified.value <= sorted[j].modified.value
  {
    sorted := SortByAge(disk.archives);
    SortedByAge(disk.archives);
    ComputedTotalSaturates(disk);
    k := EvictsShortestPrefix(sorted, Total(disk));
    BytesSplit(sorted, k);
  }

  // ------------------------------------------------------------------- bounds

  predicate Fits(active: seq<nat>) {
    |active| == FILES && forall i :: 0 <= i < |active| ==> active[i] <= ROLL
  }

  /** What holds between writes. */
  predicate Bounded(disk: Disk) {
    Fits(disk.active) && Bytes(disk.archives) <= BUDGET
  }

  lemma SumOfThree(sizes: seq<nat>)
    requires |sizes| == FILES
    ensures Sum(sizes) == sizes[0] + sizes[1] + sizes[2]
  {
    assert sizes[..2][..1] == sizes[..1] && sizes[..1][..0] == [];
    assert Sum(sizes[..1]) == sizes[0];
    assert Sum(sizes[..2]) == Sum(sizes[..1]) + sizes[1];
  }

  lemma EnforcedMeetsBudget(disk: Disk)
    requires Fits(disk.active) && Total(disk) <= U64_MAX
    ensures Total(Enforced(disk, {})) <= BUDGET && Bounded(Enforced(disk, {}))
  {
    var sorted, k := EnforcementEvictsOldest(disk);
    SumOfThree(disk.active);
    if k == |sorted| {
      assert sorted[k..] == [];
    }
  }

  predicate OrdinaryWrite(w: Write) {
    w.length + 1 <= ROLL && w.stubborn == {}
  }

  /** Active files and archives within their limits are within the disk bound together. */
  lemma BoundedTotal(disk: Disk)
    requires Bounded(disk)
    ensures Total(disk) <= BUDGET + 3 * ROLL
  {
    SumOfThree(disk.active);
  }

  /** Archiving moves bytes and adds none. */
  lemma ArchivingKeepsTotal(disk: Disk, w: Write)
    requires Bounded(disk)
    ensures Fits(Archived(disk, w).active) && Total(Archived(disk, w)) == Total(disk)
  {
    SumOfThree(disk.active);
    SumOfThree(Archived(disk, w).active);
    BytesSnoc(disk.archives, Archive(w.id, w.modified, disk.active[w.file]));
  }

  /** Every write keeps the bounds, and at every moment of it the directory is within the disk bound. */
  lemma WriteKeepsBounds(disk: Disk, w: Write)
    requires Bounded(disk) && OrdinaryWrite(w)
    ensures Bounded(Written(disk, w))
    ensures Total(disk) <= BUDGET + 3 * ROLL && Total(Written(disk, w)) <= BUDGET + 3 * ROLL
    ensures Rolls(disk, w) ==> Total(Archived(disk, w)) == Total(disk) && Total(Ready(disk, w)) <= BUDGET
  {
    BoundedTotal(disk);
    if Rolls(disk, w) {
      RollMeetsBudget(disk, w);
    }
    GrownIsBounded(Ready(disk, w), w);
    BoundedTotal(Written(disk, w));
  }

  lemma RollMeetsBudget(disk: Disk, w: Write)
    requires Bounded(disk) && w.stubborn == {}
    ensures Total(Archived(disk, w)) == Total(disk)
    ensures var rolled := Enforced(Archived(disk, w), w.stubborn);
      Total(rolled) <= BUDGET && Bounded(rolled) && rolled.active[w.file] == 0
  {
    BoundedTotal(disk);
    ArchivingKeepsTotal(disk, w);
    EnforcedMeetsBudget(Archived(disk, w));
  }

  lemma GrownIsBounded(ready: Disk, w: Write)
    requires Bounded(ready) && ready.active[w.file] + w.length + 1 <= ROLL
    ensures Bounded(ready.(active := ready.active[w.file := ready.active[w.file] + w.length + 1]))
  {
  }

  /** A directory as full as the bounds allow, in which the file written to is empty. */
  function Fullest(file: File): Disk {
    var rest := [ROLL, ROLL, ROLL];
    Disk(rest[file := 0], [Archive(0, None, BUDGET)])
  }

  lemma FullestTotal(file: File)
    ensures Bounded(Fullest(file)) && Total(Fullest(file)) == BUDGET + 2 * ROLL
  {
    var disk := Fullest(file);
    SumOfThree(disk.active);
    assert disk.archives[1..] == [];
    assert Bytes(disk.archives) == BUDGET;
  }

  /** The line that does not fit is written to an empty file all the same. */
  lemma LongLineOverflows(w: Write)
    requires w.length + 1 > ROLL
    ensures Total(Written(Fullest(w.file), w)) > BUDGET + 3 * ROLL
  {
    var disk := Fullest(w.file);
    FullestTotal(w.file);
    SumOfThree(disk.active);
    SumOfThree(Written(disk, w).active);
  }

  /** A line keeps every bounded directory within the disk bound exactly when it fits a file by itself. */
  lemma DiskBoundKeptIffLineFits(w: Write)
    requires w.stubborn == {}
    ensures (forall disk :: Bounded(disk) ==> Total(Written(disk, w)) <= BUDGET + 3 * ROLL) <==> w.length + 1 <= ROLL
  {
    if w.length + 1 <= ROLL {
      forall disk | Bounded(disk)
        ensures Total(Written(disk, w)) <= BUDGET + 3 * ROLL
      {
        WriteKeepsBounds(disk, w);
      }
    } else {
      FullestTotal(w.file);
      LongLineOverflows(w);
    }
  }

  /** The directory after `init` and the first `n` writes. */
  function After(disk: Disk, writes: seq<Write>, n: nat): (r: Disk)
    requires |disk.active| == FILES && n <= |writes|
    ensures |r.active| == FILES
  {
    if n == 0 then Enforced(disk, {}) else Written(After(disk, writes, n - 1), writes[n - 1])
  }

  /** Over every run: never more than the budget and three full files, and the budget itself after each roll. */
  lemma {:induction false} RunStaysBounded(disk: Disk, writes: seq<Write>, n: nat)
    requires Fits(disk.active) && Total(disk) <= U64_MAX && n <= |writes|
    requires forall i :: 0 <= i < |writes| ==> OrdinaryWrite(writes[i])
    ensures Bounded(After(disk, writes, n)) && Total(After(disk, writes, n)) <= BUDGET + 3 * ROLL
    ensures (n > 0 && Rolls(After(disk, writes, n - 1), writes[n - 1]) ==>
      Total(Ready(After(disk, writes, n - 1), writes[n - 1])) <= BUDGET)
  {
    if n == 0 {
      EnforcedMeetsBudget(disk);
    } else {
      RunStaysBounded(disk, writes, n - 1);
      WriteKeepsBounds(After(disk, writes, n - 1), writes[n - 1]);
    }
  }

  // --------------------------------------------------------------- byte by byte

  /** In every run: 16 MiB in each file, 248 MiB in all, and 200 MiB of archives at most. */
  lemma RunStaysWithinLimits(disk: Disk, writes: seq<Write>, n: nat)
    requires Fits(disk.active) && Total(disk) <= U64_MAX && n <= |writes|
    requires forall i :: 0 <= i < |writes| ==> OrdinaryWrite(writes[i])
    ensures var after := After(disk, writes, n);
      && Total(after) <= 260_046_848 && Bytes(after.archives) <= 209_715_200
      && forall i :: 0 <= i < |after.active| ==> after.active[i] <= 16_777_216
  {
    RunStaysBounded(disk, writes, n);
  }

  lemma {:induction false} EvictedAreSome(archives: seq<Archive>, total: nat, stubborn: set<nat>)
    ensures multiset(Evict(archives, total, stubborn)) <= multiset(archives)
    ensures forall a :: a in archives && a.id in stubborn ==> a in Evict(archives, total, stubborn)
    ensures total <= 209_715_200 ==> Evict(archives, total, stubborn) == archives
    decreases |archives|
  {
    if archives != [] && total > BUDGET {
      var head, rest := archives[0], archives[1..];
      assert archives == [head] + rest;
      if head.id in stubborn {
        EvictedAreSome(rest, total, stubborn);
      } else {
        EvictedAreSome(rest, SaturatingSub(total, head.bytes), stubborn);
      }
    }
  }

  /** Enforcement only deletes archives, never one that cannot be deleted, and none within the budget. */
  lemma EnforcementOnlyDeletes(disk: Disk, stubborn: set<nat>)
    ensures var after := Enforced(disk, stubborn);
      && after.active == disk.active && multiset(after.archives) <= multiset(disk.archives)
      && (forall a :: a in disk.archives && a.id in stubborn ==> a in after.archives)
      && (Total(disk) <= 209_715_200 ==> multiset(after.archives) == multiset(disk.archives))
  {
    var sorted := SortByAge(disk.archives);
    SortedByAge(disk.archives);
    ComputedTotalSaturates(disk);
    EvictedAreSome(sorted, ComputedTotal(disk), stubborn);
    forall a | a in disk.archives && a.id in stubborn
      ensures a in Enforced(disk, stubborn).archives
    {
      assert a in multiset(sorted);
    }
  }

  /**
  A line goes to its own file: at its end while it fits 16 MiB, else to the emptied file, whose
  contents become one more archive.
  */
  lemma LineGoesToItsFile(disk: Disk, w: Write)
    requires |disk.active| == FILES
    ensures var after := Written(disk, w); var size := disk.active[w.file];
      && |after.active| == FILES && (forall j :: 0 <= j < FILES && j != w.file ==> after.active[j] == disk.active[j])
      && (size == 0 || size + w.length + 1 <= 16_777_216 ==>
            after.active[w.file] == size + w.length + 1 && after.archives == disk.archives)
      && (size > 0 && size + w.length + 1 > 16_777_216 ==>
            && after.active[w.file] == w.length + 1
            && multiset(after.archives) <= multiset(disk.archives) + multiset{Archive(w.id, w.modified, size)})
  {
    EnforcementOnlyDeletes(Archived(disk, w), w.stubborn);
  }
}
