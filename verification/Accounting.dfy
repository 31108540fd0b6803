/** The two resource ledgers: the sums that admission compares, and the GPU ids
    that launches hand out. */
module Accounting {
  import opened Basics
  import opened Jobs

  // ----- sums over rows, in id order -----

  function Total(rows: map<JobId, Job>, load: Job -> nat, n: nat): nat {
    if n == 0 then 0 else Total(rows, load, n - 1) + (if n - 1 in rows then load(rows[n - 1]) else 0)
  }

  function CpuLoad(r: Job): nat { if Holds(r) then r.cpus * r.tasks else 0 }

  function MemoryLoad(r: Job): nat { if Holds(r) then r.memoryMb else 0 }

  function GpuLoad(r: Job): nat { if Holds(r) then r.gpus else 0 }

  /** Counts the running tasks of one array. */
  function ArrayLoad(a: JobId): Job -> nat {
    (r: Job) => if r.state == Running && r.arrayJobId == Some(a) then 1 else 0
  }

  /** The columns that the sums and the exclusivity test read. */
  function LoadView(r: Job): (bool, nat, nat, nat, nat, bool) {
    (Holds(r), r.cpus, r.tasks, r.memoryMb, r.gpus, r.exclusive)
  }

  lemma {:induction false} TotalUpdate(rows: map<JobId, Job>, load: Job -> nat, n: nat, id: JobId, r: Job)
    ensures Total(rows[id := r], load, n) + (if id < n && id in rows then load(rows[id]) else 0)
         == Total(rows, load, n) + (if id < n then load(r) else 0)
  {
    if n > 0 { TotalUpdate(rows, load, n - 1, id, r); }
  }

  /** Rows that are not there yet add nothing. */
  lemma {:induction false} TotalBeyond(rows: map<JobId, Job>, load: Job -> nat, n: nat, m: nat)
    requires n <= m && forall id :: id in rows ==> id < n
    ensures Total(rows, load, m) == Total(rows, load, n)
  {
    if n < m { TotalBeyond(rows, load, n, m - 1); }
  }

  lemma {:induction false} TotalAgrees(rows: map<JobId, Job>, rows': map<JobId, Job>, load: Job -> nat, n: nat)
    requires forall id :: 0 <= id < n ==>
               (if id in rows then load(rows[id]) else 0) == (if id in rows' then load(rows'[id]) else 0)
    ensures Total(rows, load, n) == Total(rows', load, n)
  {
    if n > 0 { TotalAgrees(rows, rows', load, n - 1); }
  }

  lemma {:induction false} TotalGrows(rows: map<JobId, Job>, rows': map<JobId, Job>, load: Job -> nat, n: nat)
    requires forall id :: 0 <= id < n ==>
               (if id in rows then load(rows[id]) else 0) <= (if id in rows' then load(rows'[id]) else 0)
    ensures Total(rows, load, n) <= Total(rows', load, n)
  {
    if n > 0 { TotalGrows(rows, rows', load, n - 1); }
  }

  datatype Usage = Usage(cpus: nat, memoryMb: nat, gpus: nat)

  /** `running_usage_totals` without a partition. */
  function RunningUsage(t: Table): Usage {
    Usage(Total(t.rows, CpuLoad, t.next), Total(t.rows, MemoryLoad, t.next), Total(t.rows, GpuLoad, t.next))
  }

  /** `available_resources`. */
  function Available(cfg: Config, t: Table): Usage {
    var used := RunningUsage(t);
    Usage(SatSub(cfg.totalCpus, used.cpus), SatSub(cfg.totalMemoryMb, used.memoryMb), SatSub(cfg.totalGpus, used.gpus))
  }

  function RunningArrayTasks(t: Table, a: JobId): nat {
    Total(t.rows, ArrayLoad(a), t.next)
  }

  predicate AnyRunningTopLevel(t: Table) {
    exists id :: id in t.rows && Holds(t.rows[id])
  }

  predicate AnyRunningExclusive(t: Table) {
    exists id :: id in t.rows && Holds(t.rows[id]) && t.rows[id].exclusive
  }

  /** `resources_fit`. */
  predicate ResourcesFit(cfg: Config, t: Table, partition: string, cpus: nat, tasks: nat, memoryMb: nat,
                         gpus: nat, exclusive: bool)
  {
    && !AnyRunningExclusive(t)
    && !(exclusive && AnyRunningTopLevel(t))
    && var available := Available(cfg, t);
       && SatMulU32(cpus, tasks) <= available.cpus
       && memoryMb <= available.memoryMb
       && (if cfg.IsGpuPartition(partition) then gpus <= available.gpus else gpus == 0)
  }

  predicate JobFits(cfg: Config, t: Table, r: Job) {
    ResourcesFit(cfg, t, r.partition, r.cpus, r.tasks, r.memoryMb, r.gpus, r.exclusive)
  }

  // ----- GPU ids -----

  /** `gpu_ids_in_use`, as far as the rows below n. */
  function IdsInUse(rows: map<JobId, Job>, n: nat): seq<nat> {
    if n == 0 then []
    else IdsInUse(rows, n - 1) + (if n - 1 in rows && Holds(rows[n - 1]) then rows[n - 1].assignedGpus else [])
  }

  /** Ids below n that are not used, ascending. */
  function FreeIds(used: seq<nat>, n: nat): seq<nat> {
    if n == 0 then [] else FreeIds(used, n - 1) + (if n - 1 in used then [] else [n - 1])
  }

  /** The lowest free ids, as many as asked for. */
  function AllocateGpuIds(cfg: Config, t: Table, requested: nat): Result<seq<nat>> {
    var free := FreeIds(IdsInUse(t.rows, t.next), cfg.totalGpus);
    if requested <= |free| then Ok(free[..requested]) else Err
  }

  predicate Distinct(ids: seq<nat>) {
    forall i, j :: 0 <= i < j < |ids| ==> ids[i] != ids[j]
  }

  predicate Disjoint(a: seq<nat>, b: seq<nat>) {
    forall g: nat :: g in a ==> g !in b
  }

  /** The ids a running job may hold. */
  predicate GoodAssignment(cfg: Config, r: Job) {
    && Distinct(r.assignedGpus)
    && (forall g: nat :: g in r.assignedGpus ==> g < cfg.totalGpus)
    && |r.assignedGpus| == (if r.allocationOnly then 0 else r.gpus)
  }

  /** The id ledger: what running top-level jobs hold is in range, as many as
      requested, and never shared. */
  predicate GpuLedger(cfg: Config, t: Table) {
    && (forall id :: id in t.rows && Holds(t.rows[id]) ==> GoodAssignment(cfg, t.rows[id]))
    && (forall id, id' :: id in t.rows && id' in t.rows && id != id' && Holds(t.rows[id]) && Holds(t.rows[id']) ==>
          Disjoint(t.rows[id].assignedGpus, t.rows[id'].assignedGpus))
  }

  predicate WithinCapacity(cfg: Config, t: Table) {
    var used := RunningUsage(t);
    used.cpus <= cfg.totalCpus && used.memoryMb <= cfg.totalMemoryMb && used.gpus <= cfg.totalGpus
  }

  lemma {:induction false} InUseSelects(rows: map<JobId, Job>, n: nat, g: nat)
    ensures g in IdsInUse(rows, n)
       <==> exists id :: 0 <= id < n && id in rows && Holds(rows[id]) && g in rows[id].assignedGpus
  {
    if n > 0 {
      InUseSelects(rows, n - 1, g);
      if n - 1 in rows && Holds(rows[n - 1]) && g in rows[n - 1].assignedGpus {
        assert g in IdsInUse(rows, n);
      }
      if exists id :: 0 <= id < n - 1 && id in rows && Holds(rows[id]) && g in rows[id].assignedGpus {
        assert g in IdsInUse(rows, n - 1);
      }
    }
  }

  /** The ids in use are no more than the counts promise. */
  lemma {:induction false} InUseWithinCount(cfg: Config, t: Table, n: nat)
    requires GpuLedger(cfg, t)
    ensures |IdsInUse(t.rows, n)| <= Total(t.rows, GpuLoad, n)
  {
    if n > 0 { InUseWithinCount(cfg, t, n - 1); }
  }

  lemma {:induction false} FreeIdsAscend(used: seq<nat>, n: nat)
    ensures forall i, j :: 0 <= i < j < |FreeIds(used, n)| ==> FreeIds(used, n)[i] < FreeIds(used, n)[j]
    ensures forall g: nat :: g in FreeIds(used, n) <==> g < n && g !in used
  {
    if n > 0 {
      FreeIdsAscend(used, n - 1);
      var free := FreeIds(used, n - 1);
      forall i | 0 <= i < |free| ensures free[i] < n - 1 { assert free[i] in free; }
    }
  }

  lemma {:induction false} FreeCount(used: seq<nat>, n: nat)
    ensures |FreeIds(used, n)| + |set g: nat | g in used && g < n| == n
  {
    if n == 0 {
      assert (set g: nat | g in used && g < 0) == {};
    } else {
      FreeCount(used, n - 1);
      var s := set g: nat | g in used && g < n - 1;
      assert (set g: nat | g in used && g < n) == if n - 1 in used then s + {n - 1} else s;
    }
  }

  lemma {:induction false} SetOfSeqCount(ids: seq<nat>)
    ensures |set g: nat | g in ids| <= |ids|
  {
    if ids != [] {
      var front, last := ids[..|ids| - 1], ids[|ids| - 1];
      SetOfSeqCount(front);
      assert (set g: nat | g in ids) == (set g: nat | g in front) + {last};
    }
  }

  lemma EnoughFree(used: seq<nat>, n: nat)
    ensures |FreeIds(used, n)| >= n - |used|
  {
    FreeCount(used, n);
    SetOfSeqCount(used);
    SubsetCount(set g: nat | g in used && g < n, set g: nat | g in used);
  }

  /** Whenever the counts admit a request, the ids for it exist: the allocation
      after a successful admission test cannot fail. */
  lemma AdmittedMeansAllocatable(cfg: Config, t: Table, requested: nat)
    requires GpuLedger(cfg, t)
    requires requested <= Available(cfg, t).gpus
    ensures AllocateGpuIds(cfg, t, requested).Ok?
  {
    InUseWithinCount(cfg, t, t.next);
    EnoughFree(IdsInUse(t.rows, t.next), cfg.totalGpus);
  }

  /** What an allocation hands out: as many ids as asked for, ascending, in
      range and held by no running job, and no free id below a chosen one is skipped. */
  lemma AllocationIsFresh(cfg: Config, t: Table, requested: nat)
    requires WellNumbered(t) && AllocateGpuIds(cfg, t, requested).Ok?
    ensures var ids := AllocateGpuIds(cfg, t, requested).value;
            && |ids| == requested && Distinct(ids)
            && (forall g: nat :: g in ids ==> g < cfg.totalGpus)
            && (forall id :: id in t.rows && Holds(t.rows[id]) ==> Disjoint(ids, t.rows[id].assignedGpus))
            && (forall g: nat, h: nat :: g in ids && h < g && h !in ids ==>
                  exists id :: id in t.rows && Holds(t.rows[id]) && h in t.rows[id].assignedGpus)
  {
    var used := IdsInUse(t.rows, t.next);
    var free := FreeIds(used, cfg.totalGpus);
    var ids := free[..requested];
    FreeIdsAscend(used, cfg.totalGpus);
    assert forall g: nat :: g in ids ==> g in free;
    forall id, g: nat | id in t.rows && Holds(t.rows[id]) && g in ids ensures g !in t.rows[id].assignedGpus {
      InUseSelects(t.rows, t.next, g);
    }
    forall g: nat, h: nat | g in ids && h < g && h !in ids
      ensures exists id :: id in t.rows && Holds(t.rows[id]) && h in t.rows[id].assignedGpus
    {
      InUseSelects(t.rows, t.next, h);
      var i :| 0 <= i < requested && ids[i] == g;
      SkippedIsUsed(used, cfg.totalGpus, requested, i, h);
    }
  }

  lemma SkippedIsUsed(used: seq<nat>, n: nat, requested: nat, i: nat, h: nat)
    requires i < requested <= |FreeIds(used, n)| && h < FreeIds(used, n)[i] && h !in FreeIds(used, n)[..requested]
    ensures h in used
  {
    var free := FreeIds(used, n);
    FreeIdsAscend(used, n);
    assert free[i] in free;
    forall j | 0 <= j < |free| ensures free[j] != h {
      if j < requested { assert free[j] in free[..requested]; } else { assert free[i] < free[j]; }
    }
  }

  // ----- what the ledgers leave out -----

  /** COMPLETING: started, and not known to be over. The ledgers count RUNNING rows only. */
  predicate LeftOver(r: Job) {
    r.state == Completing && r.parent.None?
  }

  /** RUNNING or left over. */
  predicate Occupies(r: Job) {
    Holds(r) || LeftOver(r)
  }

  function OccupiedCpus(r: Job): nat { if Occupies(r) then r.cpus * r.tasks else 0 }

  function OccupiedMemory(r: Job): nat { if Occupies(r) then r.memoryMb else 0 }

  function OccupiedGpus(r: Job): nat { if Occupies(r) then r.gpus else 0 }

  function OccupiedUsage(t: Table): Usage {
    Usage(Total(t.rows, OccupiedCpus, t.next), Total(t.rows, OccupiedMemory, t.next),
          Total(t.rows, OccupiedGpus, t.next))
  }

  function IdsOccupied(rows: map<JobId, Job>, n: nat): seq<nat> {
    if n == 0 then []
    else IdsOccupied(rows, n - 1) + (if n - 1 in rows && Occupies(rows[n - 1]) then rows[n - 1].assignedGpus else [])
  }

  lemma {:induction false} TotalsAgree(rows: map<JobId, Job>, load: Job -> nat, wide: Job -> nat, n: nat)
    requires forall id :: id in rows ==> load(rows[id]) <= wide(rows[id])
    ensures Total(rows, load, n) <= Total(rows, wide, n)
    ensures Total(rows, load, n) == Total(rows, wide, n)
       <==> forall id :: id in rows && id < n ==> load(rows[id]) == wide(rows[id])
  {
    if n > 0 { TotalsAgree(rows, load, wide, n - 1); }
  }

  predicate NoneHolds(rows: map<JobId, Job>, n: nat) {
    forall id :: id in rows && id < n && LeftOver(rows[id]) ==> rows[id].assignedGpus == []
  }

  lemma {:induction false} IdsAgree(rows: map<JobId, Job>, n: nat)
    ensures |IdsInUse(rows, n)| <= |IdsOccupied(rows, n)|
    ensures IdsInUse(rows, n) == IdsOccupied(rows, n) <==> NoneHolds(rows, n)
  {
    if n > 0 {
      IdsAgree(rows, n - 1);
      var a, b := IdsInUse(rows, n - 1), IdsOccupied(rows, n - 1);
      assert NoneHolds(rows, n)
        <==> NoneHolds(rows, n - 1) && (n - 1 in rows && LeftOver(rows[n - 1]) ==> rows[n - 1].assignedGpus == []);
      hide NoneHolds;
      assert a + [] == a && b + [] == b;
      if n - 1 in rows {
        var held := rows[n - 1].assignedGpus;
        SameTail(a, b, held);
        Longer(a, b, held);
      }
    }
  }

  lemma Longer(a: seq<nat>, b: seq<nat>, c: seq<nat>)
    requires |a| <= |b|
    ensures a == b + c <==> a == b && c == []
  {
    if c == [] { assert b + c == b; } else { assert |a| < |b + c|; }
  }

  lemma SameTail(a: seq<nat>, b: seq<nat>, c: seq<nat>)
    ensures a + c == b + c <==> a == b
  {
    if a + c == b + c {
      assert |a| == |b|;
      assert (a + c)[..|a|] == a && (b + c)[..|a|] == b;
    }
  }

  /** Each ledger counts all that is RUNNING or COMPLETING exactly if no COMPLETING
      top-level job has anything of the kind. */
  lemma CountingExactly(t: Table)
    requires WellNumbered(t)
    ensures RunningUsage(t).cpus == OccupiedUsage(t).cpus
       <==> forall id :: id in t.rows && LeftOver(t.rows[id]) ==> t.rows[id].cpus * t.rows[id].tasks == 0
    ensures RunningUsage(t).memoryMb == OccupiedUsage(t).memoryMb
       <==> forall id :: id in t.rows && LeftOver(t.rows[id]) ==> t.rows[id].memoryMb == 0
    ensures RunningUsage(t).gpus == OccupiedUsage(t).gpus
       <==> forall id :: id in t.rows && LeftOver(t.rows[id]) ==> t.rows[id].gpus == 0
    ensures IdsInUse(t.rows, t.next) == IdsOccupied(t.rows, t.next)
       <==> forall id :: id in t.rows && LeftOver(t.rows[id]) ==> t.rows[id].assignedGpus == []
  {
    forall id | id in t.rows
      ensures CpuLoad(t.rows[id]) <= OccupiedCpus(t.rows[id])
      ensures MemoryLoad(t.rows[id]) <= OccupiedMemory(t.rows[id])
      ensures GpuLoad(t.rows[id]) <= OccupiedGpus(t.rows[id])
      ensures CpuLoad(t.rows[id]) == OccupiedCpus(t.rows[id])
         <==> (LeftOver(t.rows[id]) ==> t.rows[id].cpus * t.rows[id].tasks == 0)
      ensures MemoryLoad(t.rows[id]) == OccupiedMemory(t.rows[id])
         <==> (LeftOver(t.rows[id]) ==> t.rows[id].memoryMb == 0)
      ensures GpuLoad(t.rows[id]) == OccupiedGpus(t.rows[id]) <==> (LeftOver(t.rows[id]) ==> t.rows[id].gpus == 0)
    {
      RowCounts(t.rows[id]);
    }
    hide CpuLoad, MemoryLoad, GpuLoad, OccupiedCpus, OccupiedMemory, OccupiedGpus, LeftOver, Total;
    TotalsAgree(t.rows, CpuLoad, OccupiedCpus, t.next);
    TotalsAgree(t.rows, MemoryLoad, OccupiedMemory, t.next);
    TotalsAgree(t.rows, GpuLoad, OccupiedGpus, t.next);
    IdsAgree(t.rows, t.next);
  }

  lemma RowCounts(r: Job)
    ensures CpuLoad(r) <= OccupiedCpus(r) && MemoryLoad(r) <= OccupiedMemory(r) && GpuLoad(r) <= OccupiedGpus(r)
    ensures CpuLoad(r) == OccupiedCpus(r) <==> (LeftOver(r) ==> r.cpus * r.tasks == 0)
    ensures MemoryLoad(r) == OccupiedMemory(r) <==> (LeftOver(r) ==> r.memoryMb == 0)
    ensures GpuLoad(r) == OccupiedGpus(r) <==> (LeftOver(r) ==> r.gpus == 0)
  {
  }
}
