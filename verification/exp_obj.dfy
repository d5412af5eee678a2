/**
 * The exported object of the cas_disk layer (modules/cas_disk/exp_obj.c): the virtual block
 * device a cache presents on top of an underlying ("core") device, its creation and
 * activation rollback chains, request admission and dispatch by mode, the pass-through
 * forwarder, partition hiding on the core device, and lock / destroy / attach / detach.
 *
 * Kernel services are not modelled; each call becomes an outcome passed in by the caller
 * (an allocation that succeeds or not, the code a registration returns). What the driver
 * takes from the kernel and gives back is recorded in the ghost ledger `CasdskModule.log`.
 */
module ExpObj {
  import opened Common
  import opened Rollback

  // ---------------------------------------------------------------- constants

  /** DISK_NAME_LEN of include/linux/genhd.h: room for a disk name and its terminating zero. */
  const DISK_NAME_LEN: nat := 32
  /** DISK_MAX_PARTS of include/linux/genhd.h. */
  const DISK_MAX_PARTS: nat := 256
  /** GENHD_FL_EXT_DEVT, 0x40: bit 6 of a gendisk's flags. */
  const GENHD_FL_EXT_DEVT: nat := 6
  /** GENHD_FL_NO_PART_SCAN, 0x200: bit 9 of a gendisk's flags. */
  const GENHD_FL_NO_PART_SCAN: nat := 9
  const NoFlags: Flags := {}
  /** `_casdsk_flags`: the gendisk flag bits the driver clears on the core disk while it is exported. */
  const CasdskFlags: Flags := {GENHD_FL_NO_PART_SCAN, GENHD_FL_EXT_DEVT}
  /** sizeof(atomic_t). */
  const ATOMIC_SIZE: nat := 4
  /** KMEM_CACHE_MIN_SIZE, defined as sizeof(void *) on a 64-bit kernel. */
  const KMEM_CACHE_MIN_SIZE: nat := 8
  /** BLK_STS_OK. */
  const BLK_STS_OK: int := 0

  // ---------------------------------------------------------------- values

  /** The operating mode of a disk (casdsk_disk.mode). */
  datatype Mode = Unknown | PassThrough | Attached | Shutdown

  /** A gendisk's flags word, as the set of the numbers of its bits that are set: `&` is
    * intersection, `|` union and `& ~` difference. */
  type Flags = set<nat>

  /** Identity of a kernel module that owns an exported object (struct module *). */
  type ModuleId = nat

  /** Which callbacks the owner's casdsk_exp_obj_ops provides. */
  datatype Ops = Ops(hasMakeRequest: bool, hasQueueRq: bool, hasSetGeometry: bool, hasCleanupQueue: bool)

  /** A queue's bio entry point: the block layer's own, or the driver's `_casdsk_exp_obj_make_rq_fn`. */
  datatype MakeRequestFn = BlkMqMakeRequest | CasdskMakeRq

  /** A hardware context of a blk-mq queue: its software-context count, whether it has tags, its driver data. */
  datatype HwCtx = HwCtx(nrCtx: nat, hasTags: bool, driverData: Disk?)

  /** One pass of the admission loop of `_casdsk_exp_obj_begin_rq`: the CPU it ran on and
    * whether the re-check after the increment saw a mode transition in progress. */
  datatype Attempt = Attempt(cpu: nat, sawTransition: bool)

  /** A callback or completion the dispatch of one bio performs. */
  datatype Call =
    | FastPath            // ops->make_request_fn
    | SavedMakeRequest    // the queue's original make_request_fn
    | Forward             // the pass-through forwarder
    | EndIo(error: int)   // completes the bio at once with an error
    | PendingRqInc | QueueRqFn | PendingRqDec   // the owner's blk-mq callbacks

  /** What the kernel and the owner answer during `casdsk_exp_obj_create`, in call order. */
  datatype CreateEnv = CreateEnv(
    recordOk: bool,          // kmem_cache_zalloc of the record
    countersOk: bool,        // kmem_cache_zalloc of the per-CPU counters
    nameOk: bool,            // kstrdup of the name
    kobjectAdd: int,         // kobject_add
    pinOk: bool,             // try_module_get of the owner
    allocDiskOk: bool,       // alloc_disk
    blkpgDel: nat -> int,    // BLKPG_DEL_PARTITION, per partition number
    firstMinor: int,         // casdsk_disk_allocate_minors, negative on failure
    tagSet: int,             // blk_mq_alloc_tag_set
    queueOk: bool,           // blk_mq_init_queue
    hctxs: seq<HwCtx>,       // the hardware contexts of the new queue
    setGeometry: int)        // ops->set_geometry, when the owner provides it

  /** Partition numbers start at 1; 0 stands for the whole disk. */
  type PartNo = p: nat | p >= 1 witness 1

  /** The partition table of a disk, in increasing partition number. */
  type PartList = ps: seq<PartNo> | Increasing(ps) witness []

  predicate Increasing(ps: seq<PartNo>)
  {
    forall i, j :: 0 <= i < j < |ps| ==> ps[i] < ps[j]
  }

  /** What the driver holds from the kernel. */
  datatype Resource =
    | ExpObjCache | PendingRqsCache | PtIoCtxCache   // the three kmem caches
    | ExpObjMem(e: ExpObj)                           // the casdsk_exp_obj record
    | PendingRqsMem(e: ExpObj)                       // its per-CPU pending counters
    | DevNameMem(e: ExpObj)                          // its duplicated name
    | KobjectReg(e: ExpObj)                          // its kobject, registered under the disk's
    | ModulePin(owner: ModuleId)                     // a reference on the owner module
    | GendiskRef(g: Gendisk)                         // alloc_disk / put_disk
    | TagSet(d: Disk)                                // blk_mq_alloc_tag_set / blk_mq_free_tag_set
    | QueueRef(q: Queue)                             // blk_mq_init_queue / blk_cleanup_queue
    | DiskAdded(g: Gendisk)                          // add_disk / del_gendisk
    | BdClaim(d: Disk)                               // bd_claim_by_disk / bd_release_from_disk
    | BlockdevLink(e: ExpObj)                        // the "blockdev" sysfs link
    | LockedBdev(e: ExpObj)                          // bdget_disk and its bd_mutex / bdput
    | PtIoCtxMem(c: PtIoCtx)                         // a pass-through context
    | ClonedBio(b: Bio)                              // a clone sent to the core device

  /** The caches `casdsk_init_exp_objs` creates, in creation order. */
  const PoolCaches: seq<Resource> := [ExpObjCache, PendingRqsCache, PtIoCtxCache]

  /** Object size of the pending-counter cache: one atomic_t per CPU, at least a pointer's size. */
  function PendingRqsObjSize(ncpus: nat): (size: nat)
    ensures size >= ATOMIC_SIZE * ncpus && size >= KMEM_CACHE_MIN_SIZE
    ensures size == ATOMIC_SIZE * ncpus || size == KMEM_CACHE_MIN_SIZE
  {
    if ATOMIC_SIZE * ncpus < KMEM_CACHE_MIN_SIZE then KMEM_CACHE_MIN_SIZE else ATOMIC_SIZE * ncpus
  }

  /** disk_max_parts(): how many partitions a gendisk may carry. */
  function DiskMaxParts(flags: Flags, minors: nat): nat
  {
    if GENHD_FL_EXT_DEVT in flags then DISK_MAX_PARTS else minors
  }

  /** The core disk's flags while it is exported: the driver's bits cleared, the others kept;
    * OR-ing the saved bits back gives the original flags. */
  function HiddenFlags(f: Flags): (h: Flags)
    ensures h * CasdskFlags == {}
    ensures h + SavedFlags(f) == f
  {
    f - CasdskFlags
  }

  /** The driver's flag bits of f, saved while the core disk is hidden. */
  function SavedFlags(f: Flags): Flags
  {
    f * CasdskFlags
  }

  /** `_casdsk_get_next_part_no`: the lowest partition number present, 0 when there is none. */
  function NextPartNo(ps: PartList): (p: nat)
    ensures p == 0 <==> ps == []
    ensures p != 0 ==> p in ps && forall q :: q in ps ==> p <= q
  {
    if ps == [] then 0 else ps[0]
  }

  /** The BLKPG_DEL_PARTITION result for each partition, in table order. */
  function DelCodes(ps: PartList, del: nat -> int): (codes: seq<int>)
    ensures |codes| == |ps|
  {
    seq(|ps|, i requires 0 <= i < |ps| => del(ps[i]))
  }

  /** The partition list ps of a core disk with flags f and m minors once
    * `_casdsk_exp_obj_hide_parts` has deleted what it could: the partitions from the first
    * failed deletion on, or all of ps on a partition or a disk that carries none. */
  function PartsLeft(whole: bool, f: Flags, m: nat, ps: PartList, del: nat -> int): PartList
  {
    if whole && DiskMaxParts(f, m) > 1 then ps[FailingStep(DelCodes(ps, del))..] else ps
  }

  /** The partition list ps of a disk with flags f and m minors after a BLKRRPART rescan:
    * the on-disk table when the disk allows partition scanning, ps when the ioctl refuses. */
  function Rescanned(f: Flags, m: nat, ps: PartList, table: PartList): PartList
  {
    if DiskMaxParts(f, m) > 1 && GENHD_FL_NO_PART_SCAN !in f then table else ps
  }

  /** The partition list of a core disk that had flags f, m minors and partitions ps, once
    * what could be deleted of ps is gone and, when rescanned, the flags and minors are
    * back and the table on the medium has been read again. */
  function PartsAfter(whole: bool, f: Flags, m: nat, ps: PartList, table: PartList, del: nat -> int,
    rescanned: bool): PartList
  {
    if whole && rescanned then Rescanned(f, m, PartsLeft(true, f, m, ps, del), table)
    else PartsLeft(whole, f, m, ps, del)
  }

  /** Whether hiding the partitions of a whole core disk fails: the disk may carry
    * partitions and deleting them stops at a failed deletion. */
  function HideFails(flags: Flags, minors: nat, ps: PartList, del: nat -> int): bool
  {
    DiskMaxParts(flags, minors) > 1 && FirstFailure(DelCodes(ps, del)) != 0
  }

  /** A hardware context after `_casdsk_init_queues`: claimed by d if it has software
    * contexts and tags. */
  function ClaimedHctx(h: HwCtx, d: Disk): (c: HwCtx)
    ensures c.nrCtx == h.nrCtx && c.hasTags == h.hasTags
    ensures c.driverData == if h.nrCtx == 0 || !h.hasTags then h.driverData else d
  {
    if h.nrCtx == 0 || !h.hasTags then h else h.(driverData := d)
  }

  // The steps of `casdsk_exp_obj_create`, numbered in order.
  const NameStep: nat := 0
  const AllocStep: nat := 1
  const StrdupStep: nat := 2
  const KobjectStep: nat := 3
  const PinStep: nat := 4
  const AllocDiskStep: nat := 5
  const DevTStep: nat := 6
  const TagSetStep: nat := 7
  const QueueStep: nat := 8
  const GeometryStep: nat := 9

  /** The codes of the last steps of `casdsk_exp_obj_create`: blk_mq_init_queue and the
    * owner's set_geometry (0 when the owner has none). */
  function QueueCodes(ops: Ops, env: CreateEnv): (codes: seq<int>)
    ensures |codes| == 2
  {
    [ if env.queueOk then 0 else -ENOMEM,
      if ops.hasSetGeometry then env.setGeometry else 0 ]
  }

  /** The codes from `_casdsk_init_tag_set` on. */
  function TaggedCodes(ops: Ops, env: CreateEnv): (codes: seq<int>)
    ensures |codes| == 3
  {
    [env.tagSet] + QueueCodes(ops, env)
  }

  /** The codes from `_casdsk_exp_obj_set_dev_t` on: hiding the core disk's partitions or
    * allocating the minors fails with -EINVAL. */
  function DeviceCodes(hideFails: bool, ops: Ops, env: CreateEnv): (codes: seq<int>)
    ensures |codes| == 4
  {
    [if hideFails || env.firstMinor < 0 then -EINVAL else 0] + TaggedCodes(ops, env)
  }

  /** The codes from alloc_disk on. */
  function GendiskCodes(hideFails: bool, ops: Ops, env: CreateEnv): (codes: seq<int>)
    ensures |codes| == 5
  {
    [if env.allocDiskOk then 0 else -ENOMEM] + DeviceCodes(hideFails, ops, env)
  }

  /** The codes from try_module_get on. */
  function OwnedCodes(hideFails: bool, ops: Ops, env: CreateEnv): (codes: seq<int>)
    ensures |codes| == 6
  {
    [if env.pinOk then 0 else -ENAVAIL] + GendiskCodes(hideFails, ops, env)
  }

  /** The codes from kobject_add on. */
  function RegisteredCodes(hideFails: bool, ops: Ops, env: CreateEnv): (codes: seq<int>)
    ensures |codes| == 7
  {
    [env.kobjectAdd] + OwnedCodes(hideFails, ops, env)
  }

  /** The codes from kstrdup on. */
  function NamedCodes(hideFails: bool, ops: Ops, env: CreateEnv): (codes: seq<int>)
    ensures |codes| == 8
  {
    [if env.nameOk then 0 else -ENOMEM] + RegisteredCodes(hideFails, ops, env)
  }

  /** The code each step of `casdsk_exp_obj_create` returns, 0 when it succeeds. */
  function CreateCodes(devName: string, hideFails: bool, ops: Ops, env: CreateEnv): (codes: seq<int>)
    ensures |codes| == 10
  {
    [ if |devName| >= DISK_NAME_LEN then -EINVAL else 0,
      if env.recordOk && env.countersOk then 0 else -ENOMEM ] + NamedCodes(hideFails, ops, env)
  }

  /** What the steps of `casdsk_exp_obj_create` for disk d take when they all succeed, from
    * blk_mq_init_queue back to the allocation of the record; each one prepends its own step,
    * as the codes above do. */
  function QueueLog(q: Queue): seq<Event<Resource>>
  {
    [Got(QueueRef(q))]
  }

  function TaggedLog(d: Disk, q: Queue): seq<Event<Resource>>
  {
    [Got(TagSet(d))] + QueueLog(q)
  }

  function GendiskLog(d: Disk, gd: Gendisk, q: Queue): seq<Event<Resource>>
  {
    [Got(GendiskRef(gd))] + TaggedLog(d, q)
  }

  function OwnedLog(d: Disk, owner: ModuleId, gd: Gendisk, q: Queue): seq<Event<Resource>>
  {
    [Got(ModulePin(owner))] + GendiskLog(d, gd, q)
  }

  function RegisteredLog(d: Disk, e: ExpObj, owner: ModuleId, gd: Gendisk, q: Queue): seq<Event<Resource>>
  {
    [Got(KobjectReg(e))] + OwnedLog(d, owner, gd, q)
  }

  function NamedLog(d: Disk, e: ExpObj, owner: ModuleId, gd: Gendisk, q: Queue): seq<Event<Resource>>
  {
    [Got(DevNameMem(e))] + RegisteredLog(d, e, owner, gd, q)
  }

  function CreateLog(d: Disk, e: ExpObj, owner: ModuleId, gd: Gendisk, q: Queue): seq<Event<Resource>>
  {
    [Got(ExpObjMem(e)), Got(PendingRqsMem(e))] + NamedLog(d, e, owner, gd, q)
  }

  // The steps of `casdsk_exp_obj_activate`, numbered in order.
  const PathStep: nat := 0
  const ExistsStep: nat := 1
  const ClaimStep: nat := 2
  const LinkStep: nat := 3

  /** The code each step of `casdsk_exp_obj_activate` returns, 0 when it succeeds: the path
    * buffer, the check that /dev/<name> cannot be opened yet, bd_claim_by_disk and the
    * "blockdev" link. */
  function ActivateCodes(pathOk: bool, devExists: bool, claim: int, link: int): (codes: seq<int>)
    ensures |codes| == 4
  {
    [if pathOk then 0 else -ENOMEM, if devExists then -EEXIST else 0, claim, link]
  }

  /** What a successful `casdsk_exp_obj_activate` of disk d takes: the added gendisk, the
    * claim on the core device and the link. */
  function ActivateLog(d: Disk, e: ExpObj, gd: Gendisk): seq<Event<Resource>>
  {
    [Got(DiskAdded(gd)), Got(BdClaim(d)), Got(BlockdevLink(e))]
  }

  /** What `casdsk_exp_obj_destroy` of disk d gives back: link, claim and added gendisk of an
    * activated object, the queue if there is one, the tag set, and the gendisk. */
  function DestroyLog(d: Disk, e: ExpObj, activated: bool, q: Queue?, gd: Gendisk?): seq<Event<Resource>>
  {
    (if activated && gd != null then [Put(BlockdevLink(e)), Put(BdClaim(d)), Put(DiskAdded(gd))] else [])
    + (if q != null then [Put(QueueRef(q))] else [])
    + [Put(TagSet(d))]
    + (if gd != null then [Put(GendiskRef(gd))] else [])
  }

  /** What `casdsk_exp_obj_free` gives back for the record e holding the memory mem: the
    * kobject, then the memory, last allocated first, then the owner pin if one is recorded. */
  function FreeLog(e: ExpObj, mem: seq<Resource>, owner: Option<ModuleId>): seq<Event<Resource>>
  {
    [Put(KobjectReg(e))] + PutsRev(mem) + (if owner.Some? then [Put(ModulePin(owner.value))] else [])
  }

  /** What the pass-through forwarder takes for one bio: the context, then the clone. */
  function PtLog(c: PtIoCtx, clone: Bio): seq<Event<Resource>>
  {
    [Got(PtIoCtxMem(c)), Got(ClonedBio(clone))]
  }

  /** What the completion of a clone gives back: the clone, then its context. */
  function PtEndLog(c: PtIoCtx, clone: Bio): seq<Event<Resource>>
  {
    [Put(ClonedBio(clone)), Put(PtIoCtxMem(c))]
  }

  /** The pass of the admission loop of `_casdsk_exp_obj_begin_rq` that admits the request:
    * the first whose re-check saw no mode transition. */
  function Admission(attempts: seq<Attempt>): (k: nat)
    requires exists k :: 0 <= k < |attempts| && !attempts[k].sawTransition
    ensures k < |attempts| && !attempts[k].sawTransition
    ensures forall j :: 0 <= j < k ==> attempts[j].sawTransition
  {
    if !attempts[0].sawTransition then 0
    else
      var k :| 0 <= k < |attempts| && !attempts[k].sawTransition;
      assert attempts[1..][k - 1] == attempts[k];
      1 + Admission(attempts[1..])
  }

  /** `_casdsk_exp_obj_queue_qr`: with the owner's queue_rq_fn, brackets it between the
    * owner's pending_rq_inc and pending_rq_dec and returns its status; without one there is
    * no request to serve (BUG_ON(rq)) and the status is BLK_STS_OK. */
  function QueueRq(ops: Option<Ops>, hasRq: bool, queueRqResult: int): (r: (int, seq<Call>))
    requires !(ops.Some? && ops.value.hasQueueRq) ==> !hasRq
    ensures QueueRqFn in r.1 <==> ops.Some? && ops.value.hasQueueRq
    ensures QueueRqFn in r.1 ==> r.1 == [PendingRqInc, QueueRqFn, PendingRqDec] && r.0 == queueRqResult
    ensures QueueRqFn !in r.1 ==> r.1 == [] && r.0 == BLK_STS_OK
  {
    if ops.Some? && ops.value.hasQueueRq then (queueRqResult, [PendingRqInc, QueueRqFn, PendingRqDec])
    else (BLK_STS_OK, [])
  }

  /** Where the fast path sends a bio in attached mode, or what the other modes do with it. */
  function Route(mode: Mode, hasFastPath: bool, fastDeclines: bool): (r: seq<Call>)
    requires !mode.Unknown?
    ensures mode.Attached? ==> r != [] && (FastPath in r <==> hasFastPath) && (hasFastPath ==> r[0] == FastPath)
    ensures mode.Attached? ==> (SavedMakeRequest in r <==> !hasFastPath || fastDeclines)
    ensures mode.PassThrough? ==> r == [Forward]
    ensures mode.Shutdown? ==> r == [EndIo(-EIO)]
  {
    match mode
    case Attached =>
      (if hasFastPath then [FastPath] else []) + (if !hasFastPath || fastDeclines then [SavedMakeRequest] else [])
    case PassThrough => [Forward]
    case Shutdown => [EndIo(-EIO)]
  }

  // ---------------------------------------------------------------- kernel objects

  /** The driver module's global state (casdsk_module) and the ledger of what it holds. */
  class CasdskModule {
    /** num_online_cpus(). */
    const ncpus: nat
    /** The block major number the driver registered. */
    const diskMajor: int
    /** Object size the pending-counter cache was created with. */
    var pendingRqsObjSize: nat
    /** Every resource taken from or given back to the kernel, in order. */
    ghost var log: seq<Event<Resource>>

    constructor (ncpus: nat, diskMajor: int)
      ensures this.ncpus == ncpus && this.diskMajor == diskMajor && log == []
    {
      this.ncpus := ncpus;
      this.diskMajor := diskMajor;
      log := [];
    }

    /** `casdsk_init_exp_objs`: creates the three caches in order; on a failure destroys the
      * ones already created, last first, and returns -ENOMEM. */
    method InitExpObjs(expObjCacheOk: bool, pendingRqsCacheOk: bool, ptIoCtxCacheOk: bool) returns (r: int)
      modifies this`log, this`pendingRqsObjSize
      ensures r == (if expObjCacheOk && pendingRqsCacheOk && ptIoCtxCacheOk then 0 else -ENOMEM)
      ensures r == 0 ==> log == old(log) + Gets(PoolCaches) && pendingRqsObjSize == PendingRqsObjSize(ncpus)
      ensures r != 0 ==>
        var made := if !expObjCacheOk then 0 else if !pendingRqsCacheOk then 1 else 2;
        log == old(log) + Gets(PoolCaches[..made]) + PutsRev(PoolCaches[..made])
      ensures r != 0 ==> RolledBack(log[|old(log)|..])
    {
      ghost var log0 := log;
      label errorExpObjCache: {
        if !expObjCacheOk { break errorExpObjCache; }
        log := log + [Got(ExpObjCache)];
        label errorPendingRqsCache: {
          if !pendingRqsCacheOk { break errorPendingRqsCache; }
          pendingRqsObjSize := PendingRqsObjSize(ncpus);
          log := log + [Got(PendingRqsCache)];
          if !ptIoCtxCacheOk {
            // error_pt_io_ctx_cache
            log := log + [Put(PendingRqsCache)];
            break errorPendingRqsCache;
          }
          log := log + [Got(PtIoCtxCache)];
          assert Gets(PoolCaches) == [Got(ExpObjCache), Got(PendingRqsCache), Got(PtIoCtxCache)];
          return 0;
        }
        // error_pending_rqs_cache
        log := log + [Put(ExpObjCache)];
      }
      // error_exp_obj_cache
      r := -ENOMEM;
      ghost var made := if !expObjCacheOk then 0 else if !pendingRqsCacheOk then 1 else 2;
      ghost var rs := PoolCaches[..made];
      assert Gets(rs) + PutsRev(rs) == log[|log0|..];
      UnwindBalanced([], rs);
      assert [] + rs == rs;
    }

    /** `casdsk_deinit_exp_objs`: destroys the three caches, last created first. */
    method DeinitExpObjs()
      modifies this`log
      ensures log == old(log) + PutsRev(PoolCaches)
    {
      log := log + [Put(PtIoCtxCache), Put(PendingRqsCache), Put(ExpObjCache)];
      assert PutsRev(PoolCaches) == [Put(PtIoCtxCache), Put(PendingRqsCache), Put(ExpObjCache)];
    }
  }

  /** A gendisk: the core device's, or the one created for the exported object. */
  class Gendisk {
    var flags: Flags
    var minors: nat
    var parts: PartList
    /** The partition table on the medium, which a BLKRRPART rescan reads. */
    var table: PartList
    var major: int
    var firstMinor: int
    var diskName: string
    var queue: Queue?
    var privateData: Disk?

    /** alloc_disk(minors): a zeroed gendisk without partitions. */
    constructor Alloc(minors: nat)
      ensures flags == {} && this.minors == minors && parts == [] && table == []
      ensures major == 0 && firstMinor == 0 && diskName == [] && queue == null && privateData == null
    {
      flags := {};
      this.minors := minors;
      parts := [];
      table := [];
      major := 0;
      firstMinor := 0;
      diskName := [];
      queue := null;
      privateData := null;
    }
  }

  /** A block device: a whole disk or one of its partitions (bd == bd->bd_contains or not). */
  class BlockDev {
    const disk: Gendisk
    const whole: bool

    constructor (disk: Gendisk, whole: bool)
      ensures this.disk == disk && this.whole == whole
    {
      this.disk := disk;
      this.whole := whole;
    }
  }

  /** A request queue created by blk_mq_init_queue. */
  class Queue {
    var queuedata: Disk?
    var makeRequestFn: MakeRequestFn
    const hctxs: array<HwCtx>

    /** blk_mq_init_queue: a queue with the block layer's entry point and no driver data. */
    constructor Init(ctxs: seq<HwCtx>)
      ensures queuedata == null && makeRequestFn == BlkMqMakeRequest
      ensures fresh(hctxs) && hctxs[..] == ctxs
    {
      queuedata := null;
      makeRequestFn := BlkMqMakeRequest;
      hctxs := new HwCtx[|ctxs|](i requires 0 <= i < |ctxs| => ctxs[i]);
    }
  }

  /** A bio; `status` is the status it was completed with, None while it is in flight. */
  class Bio {
    var status: Option<int>
    var private: PtIoCtx?
    var dev: BlockDev?

    constructor ()
      ensures status == None && private == null && dev == null
    {
      status := None;
      private := null;
      dev := null;
    }
  }

  /** casdsk_exp_obj_pt_io_ctx: ties a clone to the original bio and its disk. */
  class PtIoCtx {
    var bio: Bio?
    var dsk: Disk?

    /** kmem_cache_zalloc of the pass-through context cache. */
    constructor Zalloc()
      ensures bio == null && dsk == null
    {
      bio := null;
      dsk := null;
    }
  }

  /** casdsk_exp_obj: the record of an exported object. */
  class ExpObj {
    var devName: Option<string>
    var activated: bool
    var owner: Option<ModuleId>
    var ops: Option<Ops>
    /** Whether `locked_bd` holds the exported disk's block device. */
    var lockedBd: bool
    var queue: Queue?
    var gd: Gendisk?
    /** The queue's original entry point, saved when the driver installs its own. */
    var mkRqFn: Option<MakeRequestFn>
    /** One pending-request counter per CPU. */
    var pendingRqs: array?<int>
    /** Pass-through clones in flight. */
    var ptIos: int

    /** kmem_cache_zalloc of the exported-object cache. */
    constructor Zalloc()
      ensures devName == None && !activated && owner == None && ops == None && !lockedBd
      ensures queue == null && gd == null && mkRqFn == None && pendingRqs == null && ptIos == 0
    {
      devName := None;
      activated := false;
      owner := None;
      ops := None;
      lockedBd := false;
      queue := null;
      gd := null;
      mkRqFn := None;
      pendingRqs := null;
      ptIos := 0;
    }

    /** Neither activated nor locked, and no request or pass-through clone in flight. */
    ghost predicate Idle()
      reads this`activated, this`lockedBd, this`ptIos, this`pendingRqs, pendingRqs
    {
      !activated && !lockedBd && ptIos == 0 && pendingRqs != null
      && forall c :: 0 <= c < pendingRqs.Length ==> pendingRqs[c] == 0
    }

    /** The memory the record holds, in allocation order: the record, its counters, and the
      * name once it is duplicated. */
    ghost function Mem(): seq<Resource>
      reads this
    {
      [ExpObjMem(this), PendingRqsMem(this)] + if devName.Some? then [DevNameMem(this)] else []
    }

    /** `__casdsk_exp_obj_release`: frees the name (a NULL name is skipped), the counters and
      * the record, which gives back the record's memory, last allocated first. */
    method ReleaseMem(m: CasdskModule)
      requires pendingRqs != null
      modifies m`log
      ensures m.log == old(m.log) + PutsRev(Mem())
    {
      if devName.Some? {
        m.log := m.log + [Put(DevNameMem(this))];
      }
      m.log := m.log + [Put(PendingRqsMem(this)), Put(ExpObjMem(this))];
      assert PutsRev(Mem()) ==
        (if devName.Some? then [Put(DevNameMem(this))] else []) + [Put(PendingRqsMem(this)), Put(ExpObjMem(this))];
    }

    /** `_casdsk_exp_obj_release`, the kobject release callback: frees the record, then drops
      * the owner pin if an owner is still recorded. */
    method KobjRelease(m: CasdskModule)
      requires pendingRqs != null
      modifies m`log
      ensures m.log == old(m.log) + PutsRev(Mem()) + (if owner.Some? then [Put(ModulePin(owner.value))] else [])
    {
      var owner := this.owner;
      ReleaseMem(m);
      if owner.Some? {
        m.log := m.log + [Put(ModulePin(owner.value))];
      }
    }
  }

  /** casdsk_disk: a core device handled by the driver, and its exported object. */
  class Disk {
    const drv: CasdskModule
    /** The core block device. */
    const bd: BlockDev
    var mode: Mode
    var expObj: ExpObj?
    /** The core disk's flag bits and minor count, saved while its partitions are hidden. */
    var gdFlags: Flags
    var gdMinors: nat

    /** A freshly opened disk without exported object (the disk is opened outside this file). */
    constructor Open(drv: CasdskModule, bd: BlockDev)
      ensures this.drv == drv && this.bd == bd
      ensures mode == Unknown && expObj == null && gdFlags == {} && gdMinors == 0
    {
      this.drv := drv;
      this.bd := bd;
      mode := Unknown;
      expObj := null;
      gdFlags := {};
      gdMinors := 0;
    }

    /** The exported object exists and has one pending counter per CPU. */
    ghost predicate Ready()
      reads this`expObj, (if expObj != null then {expObj} else {})`pendingRqs
    {
      expObj != null && expObj.pendingRqs != null && expObj.pendingRqs.Length == drv.ncpus
    }

    /** `casdsk_exp_obj_alloc`: allocates the record and its zeroed per-CPU counters; if the
      * counters cannot be allocated the record is freed again. */
    method ExpObjAlloc(recordOk: bool, countersOk: bool) returns (r: int, ghost ev: seq<Event<Resource>>)
      requires expObj == null
      modifies this`expObj, drv`log
      ensures r == (if recordOk && countersOk then 0 else -ENOMEM)
      ensures drv.log == old(drv.log) + ev
      ensures r == 0 ==> (Ready() && fresh(expObj) && expObj.devName == None && expObj.owner == None
        && expObj.ops == None && expObj.queue == null && expObj.gd == null && expObj.mkRqFn == None
        && fresh(expObj.pendingRqs) && expObj.Idle()
        && ev == Gets(expObj.Mem()))
      ensures r != 0 ==> expObj == null && RolledBack(ev)
    {
      ev := [];
      if !recordOk {
        r := -ENOMEM;
        return;
      }
      var e := new ExpObj.Zalloc();
      drv.log := drv.log + [Got(ExpObjMem(e))];
      if !countersOk {
        // error_pending_rqs_alloc
        drv.log := drv.log + [Put(ExpObjMem(e))];
        ev := Gets([ExpObjMem(e)]) + PutsRev([ExpObjMem(e)]);
        UnwindBalanced([], [ExpObjMem(e)]);
        r := -ENOMEM;
        return;
      }
      e.pendingRqs := new int[drv.ncpus](_ => 0);
      drv.log := drv.log + [Got(PendingRqsMem(e))];
      expObj := e;
      ev := Gets(e.Mem());
      assert ev == [Got(ExpObjMem(e)), Got(PendingRqsMem(e))];
      r := 0;
    }

    /** `casdsk_exp_obj_free`: drops the kobject reference, which unregisters the kobject and
      * runs the release callback, and forgets the exported object. */
    method Free()
      requires expObj != null ==> expObj.pendingRqs != null
      modifies this`expObj, drv`log
      ensures expObj == null
      ensures old(expObj) == null ==> drv.log == old(drv.log)
      ensures old(expObj) != null ==>
        drv.log == old(drv.log) + FreeLog(old(expObj), old(expObj.Mem()), old(expObj.owner))
    {
      var e := expObj;
      if e == null {
        return;
      }
      drv.log := drv.log + [Put(KobjectReg(e))];
      e.KobjRelease(drv);
      expObj := null;
    }

    /** `casdsk_exp_obj_attach`: pins the new owner module; only then records owner and ops. */
    method Attach(owner: ModuleId, ops: Ops, pinOk: bool) returns (r: int)
      requires expObj != null
      modifies expObj`owner, expObj`ops, drv`log
      ensures r == (if pinOk then 0 else -ENAVAIL)
      ensures r == 0 ==> (expObj.owner == Some(owner) && expObj.ops == Some(ops)
        && drv.log == old(drv.log) + [Got(ModulePin(owner))])
      ensures r != 0 ==> (expObj.owner == old(expObj.owner) && expObj.ops == old(expObj.ops)
        && drv.log == old(drv.log))
    {
      if !pinOk {
        return -ENAVAIL;
      }
      drv.log := drv.log + [Got(ModulePin(owner))];
      expObj.owner := Some(owner);
      expObj.ops := Some(ops);
      r := 0;
    }

    /** `casdsk_exp_obj_dettach`: drops the owner pin (module_put of NULL does nothing) and
      * clears owner and ops. */
    method Detach() returns (r: int)
      requires expObj != null
      modifies expObj`owner, expObj`ops, drv`log
      ensures r == 0 && expObj.owner == None && expObj.ops == None
      ensures drv.log == old(drv.log)
        + (if old(expObj.owner).Some? then [Put(ModulePin(old(expObj.owner).value))] else [])
    {
      if expObj.owner.Some? {
        drv.log := drv.log + [Put(ModulePin(expObj.owner.value))];
      }
      expObj.owner := None;
      expObj.ops := None;
      r := 0;
    }

    /** `_casdsk_del_partitions`: deletes the lowest-numbered partition of the core disk until
      * none is left or a deletion fails; returns 0 or the code of the failed deletion, and
      * the partitions from the failed one on are still there. */
    method DelPartitions(del: nat -> int) returns (r: int)
      modifies bd.disk`parts
      ensures r == FirstFailure(DelCodes(old(bd.disk.parts), del))
      ensures bd.disk.parts == old(bd.disk.parts)[FailingStep(DelCodes(old(bd.disk.parts), del))..]
    {
      ghost var ps0 := bd.disk.parts;
      ghost var codes := DelCodes(ps0, del);
      ghost var i := 0;
      r := 0;
      var partNo := NextPartNo(bd.disk.parts);
      while partNo != 0
        invariant 0 <= i <= |ps0| && bd.disk.parts == ps0[i..]
        invariant forall j :: 0 <= j < i ==> codes[j] == 0
        invariant partNo == NextPartNo(bd.disk.parts) && r == 0
        decreases |bd.disk.parts|
      {
        // ioctl_by_bdev(bd, BLKPG, BLKPG_DEL_PARTITION of partNo)
        r := del(partNo);
        if r != 0 {
          break;
        }
        bd.disk.parts := bd.disk.parts[1..];
        i := i + 1;
        partNo := NextPartNo(bd.disk.parts);
      }
      if r != 0 {
        FailsAt(codes, i);
      } else {
        FailsNowhere(codes);
      }
    }

    /** `_casdsk_exp_obj_hide_parts`: on a whole core disk that may carry partitions, deletes
      * them (-EINVAL if a deletion fails, with nothing saved); then saves the driver's flag
      * bits and the minor count, clears those bits and leaves a single minor. A partition
      * is left alone. */
    method HideParts(del: nat -> int) returns (r: int)
      modifies bd.disk`parts, bd.disk`flags, bd.disk`minors, this`gdFlags, this`gdMinors
      ensures !bd.whole ==> r == 0 && unchanged(bd.disk) && gdFlags == old(gdFlags) && gdMinors == old(gdMinors)
      ensures bd.whole ==>
        r == if HideFails(old(bd.disk.flags), old(bd.disk.minors), old(bd.disk.parts), del) then -EINVAL else 0
      ensures bd.disk.parts ==
        PartsAfter(bd.whole, old(bd.disk.flags), old(bd.disk.minors), old(bd.disk.parts), bd.disk.table, del, r != 0)
      ensures r != 0 ==> (bd.disk.flags == old(bd.disk.flags) && bd.disk.minors == old(bd.disk.minors)
        && gdFlags == old(gdFlags) && gdMinors == old(gdMinors))
      ensures bd.whole && r == 0 ==> (gdFlags == SavedFlags(old(bd.disk.flags)) && gdMinors == old(bd.disk.minors)
        && bd.disk.flags == HiddenFlags(old(bd.disk.flags)) && bd.disk.minors == 1)
    {
      if !bd.whole {
        return 0;
      }
      if DiskMaxParts(bd.disk.flags, bd.disk.minors) > 1 {
        r := DelPartitions(del);
        if r != 0 {
          // BLKRRPART: try to bring the partitions back
          bd.disk.parts := Rescanned(bd.disk.flags, bd.disk.minors, bd.disk.parts, bd.disk.table);
          return -EINVAL;
        }
      }
      gdFlags := SavedFlags(bd.disk.flags);
      gdMinors := bd.disk.minors;
      bd.disk.flags := HiddenFlags(bd.disk.flags);
      bd.disk.minors := 1;
      bd.disk.parts := Rescanned(bd.disk.flags, bd.disk.minors, bd.disk.parts, bd.disk.table);   // BLKRRPART
      r := 0;
    }

    /** `_casdsk_exp_obj_clear_dev_t`: on a whole core disk, puts back the saved minor count,
      * ORs the saved flag bits back in and rescans the partitions. */
    method ClearDevT()
      modifies bd.disk`flags, bd.disk`minors, bd.disk`parts
      ensures bd.whole ==> (bd.disk.minors == gdMinors && bd.disk.flags == old(bd.disk.flags) + gdFlags
        && bd.disk.parts == Rescanned(bd.disk.flags, bd.disk.minors, old(bd.disk.parts), bd.disk.table))
      ensures !bd.whole ==> unchanged(bd.disk)
    {
      if bd.whole {
        bd.disk.minors := gdMinors;
        bd.disk.flags := bd.disk.flags + gdFlags;
        bd.disk.parts := Rescanned(bd.disk.flags, bd.disk.minors, bd.disk.parts, bd.disk.table);   // BLKRRPART
      }
    }

    /** `_casdsk_exp_obj_set_dev_t`: sizes the exported disk like the core disk (one minor
      * over a partition), hides the core disk's partitions, then takes the minors it was
      * given; -EINVAL if hiding or the minor allocation fails. */
    method SetDevT(gd: Gendisk, del: nat -> int, firstMinor: int) returns (r: int)
      requires gd != bd.disk
      modifies gd`firstMinor, gd`minors, gd`major, gd`flags
      modifies bd.disk`parts, bd.disk`flags, bd.disk`minors, this`gdFlags, this`gdMinors
      ensures r == if bd.whole && HideFails(old(bd.disk.flags), old(bd.disk.minors), old(bd.disk.parts), del) then -EINVAL
                   else if firstMinor < 0 then -EINVAL else 0
      ensures !bd.whole ==> unchanged(bd.disk) && gdFlags == old(gdFlags) && gdMinors == old(gdMinors)
      ensures bd.disk.parts == PartsAfter(bd.whole, old(bd.disk.flags), old(bd.disk.minors), old(bd.disk.parts),
        bd.disk.table, del, HideFails(old(bd.disk.flags), old(bd.disk.minors), old(bd.disk.parts), del))
      ensures bd.whole && HideFails(old(bd.disk.flags), old(bd.disk.minors), old(bd.disk.parts), del) ==>
        (bd.disk.flags == old(bd.disk.flags) && bd.disk.minors == old(bd.disk.minors)
        && gdFlags == old(gdFlags) && gdMinors == old(gdMinors))
      ensures bd.whole && !HideFails(old(bd.disk.flags), old(bd.disk.minors), old(bd.disk.parts), del) ==>
        (gdFlags == SavedFlags(old(bd.disk.flags)) && gdMinors == old(bd.disk.minors)
        && bd.disk.flags == HiddenFlags(old(bd.disk.flags)) && bd.disk.minors == 1)
      ensures r == 0 ==> (gd.firstMinor == firstMinor && gd.major == drv.diskMajor
        && gd.minors == (if bd.whole then DiskMaxParts(old(bd.disk.flags), old(bd.disk.minors)) else 1)
        && gd.flags == old(gd.flags) + (if bd.whole then gdFlags else {}))
    {
      var minors := DiskMaxParts(bd.disk.flags, bd.disk.minors);
      var flags: Flags;
      if !bd.whole {
        minors := 1;
        flags := {};
      } else {
        r := HideParts(del);
        if r != 0 {
          return -EINVAL;
        }
        flags := gdFlags;
      }
      // casdsk_disk_allocate_minors(minors)
      gd.firstMinor := firstMinor;
      if gd.firstMinor < 0 {
        return -EINVAL;
      }
      gd.minors := minors;
      gd.major := drv.diskMajor;
      gd.flags := gd.flags + flags;
      r := 0;
    }

    /** `_casdsk_exp_obj_init_kobject`: registers the exported object's kobject under the disk's. */
    method InitKobject(addResult: int) returns (r: int)
      requires expObj != null
      modifies drv`log
      ensures r == addResult
      ensures drv.log == old(drv.log) + if r == 0 then [Got(KobjectReg(expObj))] else []
    {
      r := addResult;
      if r == 0 {
        drv.log := drv.log + [Got(KobjectReg(expObj))];
      }
    }

    /** `_casdsk_init_tag_set`: fills in the tag set and allocates it. */
    method InitTagSet(allocResult: int) returns (r: int)
      modifies drv`log
      ensures r == allocResult
      ensures drv.log == old(drv.log) + if r == 0 then [Got(TagSet(this))] else []
    {
      r := allocResult;
      if r == 0 {
        drv.log := drv.log + [Got(TagSet(this))];
      }
    }

    /** `_casdsk_init_queues`: points every hardware context that has software contexts and
      * tags at this disk, and leaves the others alone. */
    method InitQueues(q: Queue)
      modifies q.hctxs
      ensures forall i :: 0 <= i < q.hctxs.Length ==> q.hctxs[i] == ClaimedHctx(old(q.hctxs[i]), this)
    {
      var hctxs := q.hctxs;
      for i := 0 to hctxs.Length
        invariant forall j :: 0 <= j < i ==> hctxs[j] == ClaimedHctx(old(hctxs[j]), this)
        invariant forall j :: i <= j < hctxs.Length ==> hctxs[j] == old(hctxs[j])
      {
        if hctxs[i].nrCtx == 0 || !hctxs[i].hasTags {
          continue;
        }
        hctxs[i] := hctxs[i].(driverData := this);
      }
    }


    /** Whether hiding the partitions of the core disk would fail right now. */
    ghost predicate HidingFails(del: nat -> int)
      reads bd.disk
    {
      bd.whole && HideFails(bd.disk.flags, bd.disk.minors, bd.disk.parts, del)
    }

    /** The core disk's flags and minor count are f and m. */
    ghost predicate CoreIs(f: Flags, m: nat)
      reads bd.disk
    {
      bd.disk.flags == f && bd.disk.minors == m
    }

    /** The exported gendisk and queue as a successful create leaves them: the queue carries
      * this disk and the driver's entry point, the saved entry point is the block layer's,
      * the gendisk carries the queue, this disk and the name, and the hardware contexts with
      * software contexts and tags are claimed. */
    ghost predicate Exported(e: ExpObj, devName: string, hctxs: seq<HwCtx>)
      reads e, e.queue, e.gd, if e.queue != null then {e.queue.hctxs} else {}
    {
      e.queue != null && e.gd != null
      && e.queue.queuedata == this && e.queue.makeRequestFn == CasdskMakeRq
      && e.mkRqFn == Some(BlkMqMakeRequest)
      && e.gd.queue == e.queue && e.gd.privateData == this && e.gd.diskName == devName
      && e.queue.hctxs.Length == |hctxs|
      && forall i :: 0 <= i < |hctxs| ==> e.queue.hctxs[i] == ClaimedHctx(hctxs[i], this)
    }

    /** The minor count of the exported disk for a core disk with flags f and m minors:
      * as many as the core disk may carry partitions, one over a partition. */
    function ExportedMinors(f: Flags, m: nat): nat
    {
      if bd.whole then DiskMaxParts(f, m) else 1
    }

    /** The flags of the exported disk for a core disk with flags f: the bits hidden on a
      * whole core disk, none over a partition. */
    function ExportedFlags(f: Flags): Flags
    {
      if bd.whole then SavedFlags(f) else NoFlags
    }

    /** The exported gendisk has the given first minor, minor count and flags, and the
      * driver's major. */
    ghost predicate GendiskSet(e: ExpObj, firstMinor: int, minors: nat, flags: Flags)
      reads e, e.gd
    {
      e.gd != null && e.gd.firstMinor == firstMinor
      && e.gd.major == drv.diskMajor && e.gd.minors == minors && e.gd.flags == flags
    }

    /** What a create chain leaves of a core disk whose flags and minor count were f0 and m0:
      * a failure puts them back, except a failed minor allocation after hiding a whole
      * disk's partitions, which leaves them hidden, as does a success. */
    ghost predicate CoreAfter(f0: Flags, m0: nat, hideFails: bool, failedAtDevT: bool, failed: bool)
      reads bd.disk
    {
      (failed && !(bd.whole && failedAtDevT && !hideFails) ==> CoreIs(f0, m0))
      && (bd.whole && !hideFails && (!failed || failedAtDevT) ==> CoreIs(HiddenFlags(f0), 1))
    }

    /** What a successful create chain builds for the name devName over a core disk whose
      * flags and minor count were f0 and m0: the gendisk numbered from firstMinor, the queue
      * wired to it, and, for a whole disk, the saved flags and minor count; e is the record. */
    ghost predicate Built(e: ExpObj, f0: Flags, m0: nat, firstMinor: int, devName: string, hctxs: seq<HwCtx>)
      reads this`gdFlags, this`gdMinors, e, e.queue, e.gd, if e.queue != null then {e.queue.hctxs} else {}
    {
      GendiskSet(e, firstMinor, ExportedMinors(f0, m0), ExportedFlags(f0))
      && Exported(e, devName, hctxs)
      && (bd.whole ==> gdFlags == SavedFlags(f0) && gdMinors == m0)
    }


    /** The tail of `casdsk_exp_obj_create` for the record e: creates the queue, wires it to
      * this disk and the gendisk, installs the driver's entry point and lets the owner set
      * the geometry. If that fails, the owner's cleanup_queue (when it has one) releases the
      * queue; without one the queue is not released. The chain's own log entries are ev. */
    method CreateQueue(e: ExpObj, gd: Gendisk, ops: Ops, env: CreateEnv, ghost name: string)
      returns (r: int, ghost ev: seq<Event<Resource>>)
      requires e.gd == gd && e.devName == Some(name) && |name| < DISK_NAME_LEN
      modifies e`queue, e`mkRqFn, gd`queue, gd`privateData, gd`diskName, drv`log
      ensures r == FirstFailure(QueueCodes(ops, env))
      ensures drv.log == old(drv.log) + ev
      ensures
        var step := FailingStep(QueueCodes(ops, env));
        r != 0 && !(step == GeometryStep - QueueStep && !ops.hasCleanupQueue) ==> RolledBack(ev)
      ensures
        var step := FailingStep(QueueCodes(ops, env));
        r != 0 && step == GeometryStep - QueueStep && !ops.hasCleanupQueue ==>
          e.queue != null && ev == [Got(QueueRef(e.queue))]
      ensures r == 0 ==> (Exported(e, name, env.hctxs) && fresh(e.queue) && e.queue != null && ev == QueueLog(e.queue))
    {
      ghost var codes := QueueCodes(ops, env);
      ev := [];
      if !env.queueOk {
        FailsAt(codes, 0);
        r := -ENOMEM;
        return;
      }
      var queue := new Queue.Init(env.hctxs);
      drv.log := drv.log + [Got(QueueRef(queue))];
      ev := [Got(QueueRef(queue))];
      queue.queuedata := this;
      e.queue := queue;
      InitQueues(queue);
      gd.queue := queue;
      gd.privateData := this;
      gd.diskName := e.devName.value;   // strlcpy: the name fits
      e.mkRqFn := Some(queue.makeRequestFn);
      queue.makeRequestFn := CasdskMakeRq;
      r := 0;
      if ops.hasSetGeometry {
        r := env.setGeometry;
        if r != 0 {
          FailsAt(codes, 1);
          // error_set_geometry
          if ops.hasCleanupQueue {
            drv.log := drv.log + [Put(QueueRef(queue))];
            ghost var none: seq<Event<Resource>> := [];
            ev := [Got(QueueRef(queue))] + none + [Put(QueueRef(queue))];
            Bracket(QueueRef(queue), none);
          }
        }
      }
      if r == 0 {
        FailsNowhere(codes);
      }
    }

    /** `casdsk_exp_obj_create` from `_casdsk_init_tag_set` on; error_init_queue frees the tag set. */
    method CreateTagged(e: ExpObj, gd: Gendisk, ops: Ops, env: CreateEnv, ghost name: string)
      returns (r: int, ghost ev: seq<Event<Resource>>)
      requires e.gd == gd && e.devName == Some(name) && |name| < DISK_NAME_LEN
      requires gd != bd.disk
      modifies e`queue, e`mkRqFn, gd`queue, gd`privateData, gd`diskName, drv`log
      ensures r == FirstFailure(TaggedCodes(ops, env))
      ensures unchanged(this`expObj, e`devName, e`owner, e`ops, e`gd, e`activated, e`lockedBd, e`ptIos, e`pendingRqs)
      ensures unchanged(gd`firstMinor, gd`minors, gd`major, gd`flags, this`gdFlags, this`gdMinors) && unchanged(bd.disk)
      ensures drv.log == old(drv.log) + ev
      ensures
        var step := FailingStep(TaggedCodes(ops, env));
        r != 0 && !(step == GeometryStep - TagSetStep && !ops.hasCleanupQueue) ==> RolledBack(ev)
      ensures
        var step := FailingStep(TaggedCodes(ops, env));
        r != 0 && step == GeometryStep - TagSetStep && !ops.hasCleanupQueue ==>
          e.queue != null && Keeps(ev, multiset{QueueRef(e.queue)})
      ensures r == 0 ==> (Exported(e, name, env.hctxs) && fresh(e.queue)
        && e.queue != null && ev == TaggedLog(this, e.queue))
    {
      ghost var codes := TaggedCodes(ops, env);
      ghost var log0 := drv.log;
      ev := [];
      r := InitTagSet(env.tagSet);
      if r != 0 {
        FailsAt(codes, 0);
        return;
      }
      ghost var inner;
      r, inner := CreateQueue(e, gd, ops, env, name);
      PassesThen([env.tagSet], QueueCodes(ops, env));
      ev := [Got(TagSet(this))] + inner;
      Regroup(log0, [Got(TagSet(this))], inner, [Put(TagSet(this))]);
      if r != 0 {
        drv.log := drv.log + [Put(TagSet(this))];   // error_init_queue
        ev := ev + [Put(TagSet(this))];
        if !(FailingStep(codes) == GeometryStep - TagSetStep && !ops.hasCleanupQueue) {
          Bracket(TagSet(this), inner);
        } else {
          KeepsOne(QueueRef(e.queue));
          BracketKeeps(TagSet(this), inner, multiset{QueueRef(e.queue)});
        }
      }
    }

    /** `casdsk_exp_obj_create` from `_casdsk_exp_obj_set_dev_t` on; error_init_tag_set puts
      * the core disk's flags and minors back. A failed minor allocation leaves by
      * error_dev_t, which does not. */
    method CreateDevice(e: ExpObj, gd: Gendisk, ops: Ops, env: CreateEnv, ghost hideFails: bool,
      ghost f0: Flags, ghost m0: nat, ghost name: string) returns (r: int, ghost ev: seq<Event<Resource>>)
      requires hideFails == HidingFails(env.blkpgDel) && CoreIs(f0, m0)
      requires e.gd == gd && gd != bd.disk && gd.flags == NoFlags
      requires e.devName == Some(name) && |name| < DISK_NAME_LEN
      modifies gd`firstMinor, gd`minors, gd`major, gd`flags, gd`queue, gd`privateData, gd`diskName
      modifies bd.disk`parts, bd.disk`flags, bd.disk`minors, this`gdFlags, this`gdMinors
      modifies e`queue, e`mkRqFn, drv`log
      ensures r == FirstFailure(DeviceCodes(hideFails, ops, env))
      ensures unchanged(this`expObj, e`devName, e`owner, e`ops, e`gd, e`activated, e`lockedBd, e`ptIos, e`pendingRqs)
      ensures drv.log == old(drv.log) + ev
      ensures
        var step := FailingStep(DeviceCodes(hideFails, ops, env));
        r != 0 && !(step == GeometryStep - DevTStep && !ops.hasCleanupQueue) ==> RolledBack(ev)
      ensures
        var step := FailingStep(DeviceCodes(hideFails, ops, env));
        r != 0 && step == GeometryStep - DevTStep && !ops.hasCleanupQueue ==>
          e.queue != null && Keeps(ev, multiset{QueueRef(e.queue)})
      ensures CoreAfter(f0, m0, hideFails, FailingStep(DeviceCodes(hideFails, ops, env)) == 0, r != 0)
      ensures bd.disk.parts == PartsAfter(bd.whole, f0, m0, old(bd.disk.parts), bd.disk.table, env.blkpgDel,
        r != 0 && !(FailingStep(DeviceCodes(hideFails, ops, env)) == 0 && !hideFails))
      ensures !bd.whole ==> unchanged(bd.disk)
      ensures r == 0 ==> (Built(e, f0, m0, env.firstMinor, name, env.hctxs) && fresh(e.queue)
        && e.queue != null && ev == TaggedLog(this, e.queue))
    {
      ghost var codes := DeviceCodes(hideFails, ops, env);
      ev := [];
      r := SetDevT(gd, env.blkpgDel, env.firstMinor);
      if r != 0 {
        // error_dev_t
        FailsAt(codes, 0);
        return;
      }
      r, ev := CreateTagged(e, gd, ops, env, name);
      PassesThen([if hideFails || env.firstMinor < 0 then -EINVAL else 0], TaggedCodes(ops, env));
      if r != 0 {
        ClearDevT();   // error_init_tag_set
      }
    }

    /** `casdsk_exp_obj_create` from alloc_disk on; error_dev_t drops the gendisk. */
    method CreateGendisk(e: ExpObj, ops: Ops, env: CreateEnv, ghost hideFails: bool, ghost f0: Flags,
      ghost m0: nat, ghost name: string) returns (r: int, ghost ev: seq<Event<Resource>>)
      requires hideFails == HidingFails(env.blkpgDel) && CoreIs(f0, m0)
      requires e.devName == Some(name) && |name| < DISK_NAME_LEN
      modifies e`gd, e`queue, e`mkRqFn
      modifies bd.disk`parts, bd.disk`flags, bd.disk`minors, this`gdFlags, this`gdMinors, drv`log
      ensures r == FirstFailure(GendiskCodes(hideFails, ops, env))
      ensures unchanged(this`expObj, e`devName, e`owner, e`ops, e`activated, e`lockedBd, e`ptIos, e`pendingRqs)
      ensures drv.log == old(drv.log) + ev
      ensures
        var step := FailingStep(GendiskCodes(hideFails, ops, env));
        r != 0 && !(step == GeometryStep - AllocDiskStep && !ops.hasCleanupQueue) ==> RolledBack(ev)
      ensures
        var step := FailingStep(GendiskCodes(hideFails, ops, env));
        r != 0 && step == GeometryStep - AllocDiskStep && !ops.hasCleanupQueue ==>
          e.queue != null && Keeps(ev, multiset{QueueRef(e.queue)})
      ensures FailingStep(GendiskCodes(hideFails, ops, env)) < DevTStep - AllocDiskStep ==> unchanged(bd.disk)
      ensures CoreAfter(f0, m0, hideFails, FailingStep(GendiskCodes(hideFails, ops, env)) == DevTStep - AllocDiskStep, r != 0)
      ensures !bd.whole ==> unchanged(bd.disk)
      ensures FailingStep(GendiskCodes(hideFails, ops, env)) >= DevTStep - AllocDiskStep ==> bd.disk.parts == PartsAfter(bd.whole, f0, m0,
        old(bd.disk.parts), bd.disk.table, env.blkpgDel, r != 0 && !(FailingStep(GendiskCodes(hideFails, ops, env)) == DevTStep - AllocDiskStep && !hideFails))
      ensures r == 0 ==> (e.gd != null && fresh(e.gd) && fresh(e.queue)
        && Built(e, f0, m0, env.firstMinor, name, env.hctxs)
        && e.queue != null && ev == GendiskLog(this, e.gd, e.queue))
    {
      ghost var codes := GendiskCodes(hideFails, ops, env);
      ghost var log0 := drv.log;
      ev := [];
      if !env.allocDiskOk {
        FailsAt(codes, 0);
        r := -ENOMEM;
        return;   // error_alloc_disk
      }
      var gd := new Gendisk.Alloc(1);
      assert gd != bd.disk;
      drv.log := drv.log + [Got(GendiskRef(gd))];
      e.gd := gd;
      ghost var inner;
      r, inner := CreateDevice(e, gd, ops, env, hideFails, f0, m0, name);
      PassesThen([if env.allocDiskOk then 0 else -ENOMEM], DeviceCodes(hideFails, ops, env));
      ev := [Got(GendiskRef(gd))] + inner;
      Regroup(log0, [Got(GendiskRef(gd))], inner, [Put(GendiskRef(gd))]);
      if r != 0 {
        drv.log := drv.log + [Put(GendiskRef(gd))];   // error_dev_t
        ev := ev + [Put(GendiskRef(gd))];
        if !(FailingStep(codes) == GeometryStep - AllocDiskStep && !ops.hasCleanupQueue) {
          Bracket(GendiskRef(gd), inner);
        } else {
          BracketKeeps(GendiskRef(gd), inner, multiset{QueueRef(e.queue)});
        }
      }
    }

    /** `casdsk_exp_obj_create` from try_module_get on: pins the owner and records owner and
      * ops; error_alloc_disk drops the pin and forgets the owner. */
    method CreateOwned(e: ExpObj, owner: ModuleId, ops: Ops, env: CreateEnv, ghost hideFails: bool,
      ghost f0: Flags, ghost m0: nat, ghost name: string) returns (r: int, ghost ev: seq<Event<Resource>>)
      requires hideFails == HidingFails(env.blkpgDel) && CoreIs(f0, m0)
      requires e.owner == None && e.devName == Some(name) && |name| < DISK_NAME_LEN
      modifies e`owner, e`ops, e`gd, e`queue, e`mkRqFn
      modifies bd.disk`parts, bd.disk`flags, bd.disk`minors, this`gdFlags, this`gdMinors, drv`log
      ensures r == FirstFailure(OwnedCodes(hideFails, ops, env))
      ensures unchanged(this`expObj, e`devName, e`activated, e`lockedBd, e`ptIos, e`pendingRqs)
      ensures drv.log == old(drv.log) + ev
      ensures r != 0 ==> e.owner == None
      ensures
        var step := FailingStep(OwnedCodes(hideFails, ops, env));
        r != 0 && !(step == GeometryStep - PinStep && !ops.hasCleanupQueue) ==> RolledBack(ev)
      ensures
        var step := FailingStep(OwnedCodes(hideFails, ops, env));
        r != 0 && step == GeometryStep - PinStep && !ops.hasCleanupQueue ==>
          e.queue != null && Keeps(ev, multiset{QueueRef(e.queue)})
      ensures FailingStep(OwnedCodes(hideFails, ops, env)) < DevTStep - PinStep ==> unchanged(bd.disk)
      ensures CoreAfter(f0, m0, hideFails, FailingStep(OwnedCodes(hideFails, ops, env)) == DevTStep - PinStep, r != 0)
      ensures !bd.whole ==> unchanged(bd.disk)
      ensures FailingStep(OwnedCodes(hideFails, ops, env)) >= DevTStep - PinStep ==> bd.disk.parts == PartsAfter(bd.whole, f0, m0,
        old(bd.disk.parts), bd.disk.table, env.blkpgDel, r != 0 && !(FailingStep(OwnedCodes(hideFails, ops, env)) == DevTStep - PinStep && !hideFails))
      ensures r == 0 ==> (e.owner == Some(owner) && e.ops == Some(ops)
        && e.gd != null && fresh(e.gd) && fresh(e.queue)
        && Built(e, f0, m0, env.firstMinor, name, env.hctxs)
        && e.queue != null && ev == OwnedLog(this, owner, e.gd, e.queue))
    {
      ghost var codes := OwnedCodes(hideFails, ops, env);
      ghost var log0 := drv.log;
      ev := [];
      if !env.pinOk {
        FailsAt(codes, 0);
        r := -ENAVAIL;
        return;   // error_module
      }
      drv.log := drv.log + [Got(ModulePin(owner))];
      e.owner := Some(owner);
      e.ops := Some(ops);
      ghost var inner;
      r, inner := CreateGendisk(e, ops, env, hideFails, f0, m0, name);
      PassesThen([if env.pinOk then 0 else -ENAVAIL], GendiskCodes(hideFails, ops, env));
      ev := [Got(ModulePin(owner))] + inner;
      Regroup(log0, [Got(ModulePin(owner))], inner, [Put(ModulePin(owner))]);
      if r != 0 {
        drv.log := drv.log + [Put(ModulePin(owner))];   // error_alloc_disk
        ev := ev + [Put(ModulePin(owner))];
        e.owner := None;
        if !(FailingStep(codes) == GeometryStep - PinStep && !ops.hasCleanupQueue) {
          Bracket(ModulePin(owner), inner);
        } else {
          BracketKeeps(ModulePin(owner), inner, multiset{QueueRef(e.queue)});
        }
      }
    }

    /** `casdsk_exp_obj_create` from the kobject registration on. If the registration fails
      * `__casdsk_exp_obj_release` frees the name and the record; a later failure frees them
      * through `casdsk_exp_obj_free`, which also unregisters the kobject. Either way the
      * record is forgotten; the rollback is stated together with the allocation of the
      * record and the name, rec. */
    method CreateRegistered(e: ExpObj, owner: ModuleId, ops: Ops, env: CreateEnv, ghost hideFails: bool,
      ghost f0: Flags, ghost m0: nat, ghost name: string, ghost rec: seq<Resource>)
      returns (r: int, ghost ev: seq<Event<Resource>>)
      requires hideFails == HidingFails(env.blkpgDel) && CoreIs(f0, m0)
      requires expObj == e && e.pendingRqs != null && e.owner == None && rec == e.Mem()
      requires e.devName == Some(name) && |name| < DISK_NAME_LEN
      modifies this`expObj, e`owner, e`ops, e`gd, e`queue, e`mkRqFn
      modifies bd.disk`parts, bd.disk`flags, bd.disk`minors, this`gdFlags, this`gdMinors, drv`log
      ensures r == FirstFailure(RegisteredCodes(hideFails, ops, env))
      ensures unchanged(e`devName, e`activated, e`lockedBd, e`ptIos, e`pendingRqs)
      ensures r != 0 ==> expObj == null
      ensures r == 0 ==> expObj == e
      ensures drv.log == old(drv.log) + ev
      ensures
        var step := FailingStep(RegisteredCodes(hideFails, ops, env));
        r != 0 && !(step == GeometryStep - KobjectStep && !ops.hasCleanupQueue) ==> RolledBack(Gets(rec) + ev)
      ensures
        var step := FailingStep(RegisteredCodes(hideFails, ops, env));
        r != 0 && step == GeometryStep - KobjectStep && !ops.hasCleanupQueue ==>
          e.queue != null && Keeps(Gets(rec) + ev, multiset{QueueRef(e.queue)})
      ensures FailingStep(RegisteredCodes(hideFails, ops, env)) < DevTStep - KobjectStep ==> unchanged(bd.disk)
      ensures CoreAfter(f0, m0, hideFails, FailingStep(RegisteredCodes(hideFails, ops, env)) == DevTStep - KobjectStep, r != 0)
      ensures !bd.whole ==> unchanged(bd.disk)
      ensures FailingStep(RegisteredCodes(hideFails, ops, env)) >= DevTStep - KobjectStep ==> bd.disk.parts == PartsAfter(bd.whole, f0, m0,
        old(bd.disk.parts), bd.disk.table, env.blkpgDel, r != 0 && !(FailingStep(RegisteredCodes(hideFails, ops, env)) == DevTStep - KobjectStep && !hideFails))
      ensures r == 0 ==> (e.owner == Some(owner) && e.ops == Some(ops)
        && e.gd != null && fresh(e.gd) && fresh(e.queue)
        && Built(e, f0, m0, env.firstMinor, name, env.hctxs)
        && e.queue != null && ev == RegisteredLog(this, e, owner, e.gd, e.queue))
    {
      ghost var codes := RegisteredCodes(hideFails, ops, env);
      ghost var log0 := drv.log;
      ev := [];
      r := InitKobject(env.kobjectAdd);
      if r != 0 {
        FailsAt(codes, 0);
        e.ReleaseMem(drv);
        expObj := null;   // error_kobject
        ev := PutsRev(rec);
        UnwindBalanced([], rec);
        return;
      }
      ghost var inner;
      r, inner := CreateOwned(e, owner, ops, env, hideFails, f0, m0, name);
      PassesThen([env.kobjectAdd], OwnedCodes(hideFails, ops, env));
      ev := [Got(KobjectReg(e))] + inner;
      Regroup(log0, [Got(KobjectReg(e))], inner, [Put(KobjectReg(e))]);
      if r != 0 {
        assert e.Mem() == rec && e.owner == None;
        assert FreeLog(e, rec, None) == [Put(KobjectReg(e))] + PutsRev(rec);
        Free();           // error_module
        expObj := null;   // error_kobject
        ev := ev + [Put(KobjectReg(e))];
        Regroup(log0, ev, PutsRev(rec), []);
        ev := ev + PutsRev(rec);
        if !(FailingStep(codes) == GeometryStep - KobjectStep && !ops.hasCleanupQueue) {
          WrapAfter(rec, KobjectReg(e), inner);
        } else {
          WrapAfterKeeps(rec, KobjectReg(e), inner, multiset{QueueRef(e.queue)});
        }
      }
    }

    /** `casdsk_exp_obj_create` once the record e is allocated: duplicates the name, then the
      * registration steps. If kstrdup fails `__casdsk_exp_obj_release` frees the record and
      * it is forgotten; the rollback is stated together with the allocation of the record,
      * rec. */
    method CreateNamed(e: ExpObj, devName: string, owner: ModuleId, ops: Ops, env: CreateEnv,
      ghost hideFails: bool, ghost f0: Flags, ghost m0: nat, ghost rec: seq<Resource>)
      returns (r: int, ghost ev: seq<Event<Resource>>)
      requires hideFails == HidingFails(env.blkpgDel) && CoreIs(f0, m0)
      requires expObj == e && e.pendingRqs != null && e.devName == None && e.owner == None
      requires |devName| < DISK_NAME_LEN && rec == e.Mem()
      modifies this`expObj, e`devName, e`owner, e`ops, e`gd, e`queue, e`mkRqFn
      modifies bd.disk`parts, bd.disk`flags, bd.disk`minors, this`gdFlags, this`gdMinors, drv`log
      ensures r == FirstFailure(NamedCodes(hideFails, ops, env))
      ensures unchanged(e`activated, e`lockedBd, e`ptIos, e`pendingRqs)
      ensures r != 0 ==> expObj == null
      ensures r == 0 ==> expObj == e
      ensures drv.log == old(drv.log) + ev
      ensures
        var step := FailingStep(NamedCodes(hideFails, ops, env));
        r != 0 && !(step == GeometryStep - StrdupStep && !ops.hasCleanupQueue) ==> RolledBack(Gets(rec) + ev)
      ensures
        var step := FailingStep(NamedCodes(hideFails, ops, env));
        r != 0 && step == GeometryStep - StrdupStep && !ops.hasCleanupQueue ==>
          e.queue != null && Keeps(Gets(rec) + ev, multiset{QueueRef(e.queue)})
      ensures FailingStep(NamedCodes(hideFails, ops, env)) < DevTStep - StrdupStep ==> unchanged(bd.disk)
      ensures CoreAfter(f0, m0, hideFails, FailingStep(NamedCodes(hideFails, ops, env)) == DevTStep - StrdupStep, r != 0)
      ensures !bd.whole ==> unchanged(bd.disk)
      ensures FailingStep(NamedCodes(hideFails, ops, env)) >= DevTStep - StrdupStep ==> bd.disk.parts == PartsAfter(bd.whole, f0, m0,
        old(bd.disk.parts), bd.disk.table, env.blkpgDel, r != 0 && !(FailingStep(NamedCodes(hideFails, ops, env)) == DevTStep - StrdupStep && !hideFails))
      ensures r == 0 ==> (e.devName == Some(devName) && e.owner == Some(owner) && e.ops == Some(ops)
        && e.gd != null && fresh(e.gd) && fresh(e.queue)
        && Built(e, f0, m0, env.firstMinor, devName, env.hctxs)
        && e.queue != null && ev == NamedLog(this, e, owner, e.gd, e.queue))
    {
      ghost var codes := NamedCodes(hideFails, ops, env);
      ghost var log0 := drv.log;
      ev := [];
      if !env.nameOk {
        FailsAt(codes, 0);
        e.ReleaseMem(drv);
        expObj := null;   // error_strdup
        ev := PutsRev(rec);
        UnwindBalanced([], rec);
        r := -ENOMEM;
        return;
      }
      e.devName := Some(devName);
      drv.log := drv.log + [Got(DevNameMem(e))];
      assert e.Mem() == rec + [DevNameMem(e)];
      GetsSnoc(rec, DevNameMem(e));
      ghost var inner;
      r, inner := CreateRegistered(e, owner, ops, env, hideFails, f0, m0, devName, rec + [DevNameMem(e)]);
      PassesThen([if env.nameOk then 0 else -ENOMEM], RegisteredCodes(hideFails, ops, env));
      ev := [Got(DevNameMem(e))] + inner;
      Regroup(log0, [Got(DevNameMem(e))], inner, []);
      assert Gets(rec) + ev == Gets(rec + [DevNameMem(e)]) + inner;
    }

    /** `casdsk_exp_obj_create` once the name is known to fit: allocates the record, then the
      * remaining steps. */
    method CreateRecord(devName: string, owner: ModuleId, ops: Ops, env: CreateEnv,
      ghost hideFails: bool, ghost f0: Flags, ghost m0: nat) returns (r: int, ghost ev: seq<Event<Resource>>)
      requires hideFails == HidingFails(env.blkpgDel) && CoreIs(f0, m0)
      requires expObj == null && |devName| < DISK_NAME_LEN
      modifies this`expObj, this`gdFlags, this`gdMinors, bd.disk`parts, bd.disk`flags, bd.disk`minors, drv`log
      ensures r == FirstFailure(CreateCodes(devName, hideFails, ops, env))
      ensures r != 0 ==> expObj == null
      ensures drv.log == old(drv.log) + ev
      ensures
        var step := FailingStep(CreateCodes(devName, hideFails, ops, env));
        r != 0 && !(step == GeometryStep && !ops.hasCleanupQueue) ==> RolledBack(ev)
      ensures
        var step := FailingStep(CreateCodes(devName, hideFails, ops, env));
        r != 0 && step == GeometryStep && !ops.hasCleanupQueue ==>
          exists q: Queue :: Keeps(ev, multiset{QueueRef(q)})
      ensures FailingStep(CreateCodes(devName, hideFails, ops, env)) < DevTStep ==> unchanged(bd.disk)
      ensures CoreAfter(f0, m0, hideFails, FailingStep(CreateCodes(devName, hideFails, ops, env)) == DevTStep, r != 0)
      ensures !bd.whole ==> unchanged(bd.disk)
      ensures FailingStep(CreateCodes(devName, hideFails, ops, env)) >= DevTStep ==> bd.disk.parts == PartsAfter(bd.whole, f0, m0,
        old(bd.disk.parts), bd.disk.table, env.blkpgDel, r != 0 && !(FailingStep(CreateCodes(devName, hideFails, ops, env)) == DevTStep && !hideFails))
      ensures r == 0 ==> (Ready() && fresh(expObj) && expObj.devName == Some(devName)
        && expObj.owner == Some(owner) && expObj.ops == Some(ops)
        && !expObj.activated && !expObj.lockedBd && expObj.ptIos == 0)
      ensures r == 0 ==> (expObj.gd != null && fresh(expObj.gd) && fresh(expObj.queue)
        && Built(expObj, f0, m0, env.firstMinor, devName, env.hctxs)
        && expObj.queue != null && ev == CreateLog(this, expObj, owner, expObj.gd, expObj.queue))
    {
      ghost var codes := CreateCodes(devName, hideFails, ops, env);
      ghost var log0 := drv.log;
      r, ev := ExpObjAlloc(env.recordOk, env.countersOk);
      if r != 0 {
        FailsAt(codes, AllocStep);
        return;   // error_alloc
      }
      var e := expObj;
      ghost var rec := e.Mem();
      assert Gets(rec) == [Got(ExpObjMem(e)), Got(PendingRqsMem(e))];
      ghost var inner;
      r, inner := CreateNamed(e, devName, owner, ops, env, hideFails, f0, m0, rec);
      PassesThen([ if |devName| >= DISK_NAME_LEN then -EINVAL else 0,
        if env.recordOk && env.countersOk then 0 else -ENOMEM ], NamedCodes(hideFails, ops, env));
      Regroup(log0, ev, inner, []);
      ev := ev + inner;
      if r != 0 && FailingStep(codes) == GeometryStep && !ops.hasCleanupQueue {
        assert Keeps(ev, multiset{QueueRef(e.queue)});
      }
    }

    /** `casdsk_exp_obj_create`: builds the exported object step by step (record, name,
      * kobject, owner pin, gendisk, dev_t, tag set, queue, geometry). A failing step makes it
      * undo the committed steps, last first, and return that step's code; two exits do not
      * undo everything: a failed minor allocation leaves the core disk hidden, and a failed
      * set_geometry without cleanup_queue leaves the queue allocated. The log entries the
      * call adds are ev. */
    method Create(devName: string, owner: ModuleId, ops: Ops, env: CreateEnv)
      returns (r: int, ghost ev: seq<Event<Resource>>)
      requires expObj == null
      modifies this`expObj, this`gdFlags, this`gdMinors, bd.disk`parts, bd.disk`flags, bd.disk`minors, drv`log
      ensures r == FirstFailure(CreateCodes(devName, old(HidingFails(env.blkpgDel)), ops, env))
      ensures r != 0 ==> expObj == null
      ensures drv.log == old(drv.log) + ev
      ensures
        var step := FailingStep(CreateCodes(devName, old(HidingFails(env.blkpgDel)), ops, env));
        r != 0 && !(step == GeometryStep && !ops.hasCleanupQueue) ==> RolledBack(ev)
      ensures
        var step := FailingStep(CreateCodes(devName, old(HidingFails(env.blkpgDel)), ops, env));
        r != 0 && step == GeometryStep && !ops.hasCleanupQueue ==>
          exists q: Queue :: Keeps(ev, multiset{QueueRef(q)})
      ensures |devName| >= DISK_NAME_LEN ==> (r == -EINVAL && expObj == null && ev == []
        && unchanged(bd.disk) && unchanged(this`gdFlags, this`gdMinors))
      ensures FailingStep(CreateCodes(devName, old(HidingFails(env.blkpgDel)), ops, env)) < DevTStep ==> unchanged(bd.disk)
      ensures CoreAfter(old(bd.disk.flags), old(bd.disk.minors), old(HidingFails(env.blkpgDel)),
        FailingStep(CreateCodes(devName, old(HidingFails(env.blkpgDel)), ops, env)) == DevTStep, r != 0)
      ensures !bd.whole ==> unchanged(bd.disk)
      ensures
        var hideFails := old(HidingFails(env.blkpgDel));
        var step := FailingStep(CreateCodes(devName, hideFails, ops, env));
        step >= DevTStep ==> bd.disk.parts == PartsAfter(bd.whole, old(bd.disk.flags), old(bd.disk.minors),
          old(bd.disk.parts), bd.disk.table, env.blkpgDel, r != 0 && !(step == DevTStep && !hideFails))
      ensures r == 0 ==> (Ready() && fresh(expObj) && expObj.devName == Some(devName)
        && expObj.owner == Some(owner) && expObj.ops == Some(ops)
        && !expObj.activated && !expObj.lockedBd && expObj.ptIos == 0)
      ensures r == 0 ==> (expObj.gd != null && fresh(expObj.gd) && fresh(expObj.queue)
        && Built(expObj, old(bd.disk.flags), old(bd.disk.minors), env.firstMinor, devName, env.hctxs)
        && expObj.queue != null && ev == CreateLog(this, expObj, owner, expObj.gd, expObj.queue))
    {
      ghost var hideFails := HidingFails(env.blkpgDel);
      ghost var codes := CreateCodes(devName, hideFails, ops, env);
      if |devName| >= DISK_NAME_LEN {
        FailsAt(codes, NameStep);
        ev := [];
        r := -EINVAL;
        return;
      }
      r, ev := CreateRecord(devName, owner, ops, env, hideFails, bd.disk.flags, bd.disk.minors);
    }

    // ------------------------------------------------------------ activation and teardown

    /** `casdsk_exp_obj_activate` (with `_casdsk_exp_obj_exists`): refuses with -EEXIST when
      * /dev/<name> can already be opened; otherwise marks the object activated, switches the
      * disk to attached mode and adds the gendisk, then claims the core device and creates
      * the "blockdev" link. A failure of either undoes the later steps first, deletes the
      * gendisk and clears `activated`; the mode stays attached. */
    method Activate(pathOk: bool, devExists: bool, claim: int, link: int) returns (r: int, ghost ev: seq<Event<Resource>>)
      requires expObj != null && expObj.gd != null && !expObj.activated
      modifies expObj`activated, this`mode, drv`log
      ensures r == FirstFailure(ActivateCodes(pathOk, devExists, claim, link))
      ensures expObj.activated <==> r == 0
      ensures mode == if FailingStep(ActivateCodes(pathOk, devExists, claim, link)) < ClaimStep then old(mode) else Attached
      ensures drv.log == old(drv.log) + ev
      ensures r != 0 ==> RolledBack(ev)
      ensures r == 0 ==> ev == ActivateLog(this, expObj, expObj.gd)
    {
      ghost var codes := ActivateCodes(pathOk, devExists, claim, link);
      var e := expObj;
      var gd := e.gd;
      ev := [];
      if !pathOk {
        FailsAt(codes, PathStep);
        r := -ENOMEM;
        return;
      }
      if devExists {
        FailsAt(codes, ExistsStep);
        r := -EEXIST;
        return;
      }
      e.activated := true;
      mode := Attached;
      drv.log := drv.log + [Got(DiskAdded(gd))];   // add_disk
      ghost var inner: seq<Event<Resource>> := [];
      r := claim;
      if r == 0 {
        drv.log := drv.log + [Got(BdClaim(this))];
        r := link;
        if r == 0 {
          drv.log := drv.log + [Got(BlockdevLink(e))];
          ev := ActivateLog(this, e, gd);
          FailsNowhere(codes);
          return;
        }
        // error_sysfs_link
        FailsAt(codes, LinkStep);
        drv.log := drv.log + [Put(BdClaim(this))];
        Bracket(BdClaim(this), inner);
        inner := [Got(BdClaim(this))] + inner + [Put(BdClaim(this))];
      } else {
        FailsAt(codes, ClaimStep);
      }
      // error_bd_claim
      drv.log := drv.log + [Put(DiskAdded(gd))];
      e.activated := false;
      Bracket(DiskAdded(gd), inner);
      ev := [Got(DiskAdded(gd))] + inner + [Put(DiskAdded(gd))];
    }

    /** `casdsk_exp_obj_lock`: takes the exported disk's block device and its mutex
      * (-ENAVAIL, and nothing held, if bdget_disk fails); if the device has openers it
      * unlocks again and returns -EBUSY. */
    method Lock(bdgetOk: bool, openers: nat) returns (r: int, ghost ev: seq<Event<Resource>>)
      requires expObj != null
      modifies expObj`lockedBd, drv`log
      ensures r == if !bdgetOk then -ENAVAIL else if openers > 0 then -EBUSY else 0
      ensures expObj.lockedBd <==> r == 0
      ensures drv.log == old(drv.log) + ev
      ensures r != 0 ==> RolledBack(ev)
      ensures r == 0 ==> ev == [Got(LockedBdev(expObj))]
    {
      ev := [];
      expObj.lockedBd := bdgetOk;
      if !bdgetOk {
        r := -ENAVAIL;
        return;
      }
      drv.log := drv.log + [Got(LockedBdev(expObj))];
      if openers > 0 {
        r := Unlock();
        ghost var none: seq<Event<Resource>> := [];
        Bracket(LockedBdev(expObj), none);
        ev := [Got(LockedBdev(expObj))] + none + [Put(LockedBdev(expObj))];
        r := -EBUSY;
        return;
      }
      ev := [Got(LockedBdev(expObj))];
      r := 0;
    }

    /** `casdsk_exp_obj_unlock`: releases the mutex and the block device `lock` took. */
    method Unlock() returns (r: int)
      requires expObj != null && expObj.lockedBd
      modifies expObj`lockedBd, drv`log
      ensures r == 0 && !expObj.lockedBd
      ensures drv.log == old(drv.log) + [Put(LockedBdev(expObj))]
    {
      drv.log := drv.log + [Put(LockedBdev(expObj))];
      expObj.lockedBd := false;
      r := 0;
    }

    /** `casdsk_exp_obj_destroy`: -ENODEV without an exported object. Otherwise, with the
      * device locked: an activated object loses its link and its claim, the core disk gets
      * its flags and minors back, and the gendisk is deleted; then the queue (if any) and the
      * tag set are released, the mode becomes unknown and the gendisk is put. */
    method Destroy() returns (r: int, ghost ev: seq<Event<Resource>>)
      requires expObj != null ==> expObj.lockedBd && (expObj.activated ==> expObj.gd != null)
      modifies this`mode, bd.disk`flags, bd.disk`minors, bd.disk`parts, drv`log
      ensures drv.log == old(drv.log) + ev
      ensures expObj == null ==> r == -ENODEV && mode == old(mode) && unchanged(bd.disk) && ev == []
      ensures expObj != null ==> (r == 0 && mode == Unknown
        && ev == DestroyLog(this, expObj, expObj.activated, expObj.queue, expObj.gd))
      ensures expObj != null && expObj.activated && bd.whole ==>
        (bd.disk.minors == gdMinors && bd.disk.flags == old(bd.disk.flags) + gdFlags
        && bd.disk.parts == Rescanned(bd.disk.flags, bd.disk.minors, old(bd.disk.parts), bd.disk.table))
      ensures expObj != null && !(expObj.activated && bd.whole) ==> unchanged(bd.disk)
    {
      var e := expObj;
      ev := [];
      if e == null {
        r := -ENODEV;
        return;
      }
      if e.activated {
        ev := [Put(BlockdevLink(e)), Put(BdClaim(this))];   // sysfs_remove_link, bd_release_from_disk
        ClearDevT();
        ev := ev + [Put(DiskAdded(e.gd))];                   // del_gendisk
      }
      if e.queue != null {
        ev := ev + [Put(QueueRef(e.queue))];                 // blk_cleanup_queue
      }
      ev := ev + [Put(TagSet(this))];                        // blk_mq_free_tag_set
      mode := Unknown;
      if e.gd != null {
        ev := ev + [Put(GendiskRef(e.gd))];                  // put_disk
      }
      drv.log := drv.log + ev;
      r := 0;
    }

    // ------------------------------------------------------------ request path

    /** `_casdsk_exp_obj_end_rq`: one request fewer pending on the CPU. */
    method EndRq(cpu: nat)
      requires Ready() && cpu < drv.ncpus
      modifies expObj.pendingRqs
      ensures expObj.pendingRqs[..] == old(expObj.pendingRqs[..])[cpu := old(expObj.pendingRqs[cpu]) - 1]
    {
      expObj.pendingRqs[cpu] := expObj.pendingRqs[cpu] - 1;
    }

    /** `_casdsk_exp_obj_begin_rq`: counts the request as pending on the current CPU; when the
      * re-check sees a mode transition in progress it takes the count back and retries. The
      * request is admitted on the CPU of the first pass that sees no transition, and that
      * CPU's counter is the only one raised, by one. */
    method BeginRq(attempts: seq<Attempt>) returns (cpu: nat)
      requires Ready()
      requires exists k :: 0 <= k < |attempts| && !attempts[k].sawTransition
      requires forall k :: 0 <= k < |attempts| ==> attempts[k].cpu < drv.ncpus
      modifies expObj.pendingRqs
      ensures cpu == attempts[Admission(attempts)].cpu && cpu < drv.ncpus
      ensures expObj.pendingRqs[..] == old(expObj.pendingRqs[..])[cpu := old(expObj.pendingRqs[cpu]) + 1]
    {
      var counters := expObj.pendingRqs;
      var i := 0;
      while true
        invariant 0 <= i <= Admission(attempts)
        invariant counters[..] == old(counters[..])
        decreases Admission(attempts) - i
      {
        cpu := attempts[i].cpu;   // smp_processor_id()
        counters[cpu] := counters[cpu] + 1;
        if !attempts[i].sawTransition {
          return;
        }
        EndRq(cpu);
        i := i + 1;
      }
    }

    /** `_casdsk_exp_obj_handle_bio_pt`, the pass-through forwarder: allocates a context and a
      * clone of the bio; if either fails the bio completes with -ENOMEM, a context already
      * allocated is freed and nothing stays in flight. Otherwise the clone, tied to the bio
      * and this disk through the context, goes to the core device and one more clone is in
      * flight. */
    method HandleBioPt(bio: Bio, ctxOk: bool, cloneOk: bool) returns (clone: Bio?, ghost ev: seq<Event<Resource>>)
      requires expObj != null
      modifies bio`status, expObj`ptIos, drv`log
      ensures drv.log == old(drv.log) + ev
      ensures clone != null <==> ctxOk && cloneOk
      ensures clone == null ==> bio.status == Some(-ENOMEM) && expObj.ptIos == old(expObj.ptIos) && RolledBack(ev)
      ensures clone != null ==> (bio.status == old(bio.status) && expObj.ptIos == old(expObj.ptIos) + 1
        && fresh(clone) && clone.private != null && fresh(clone.private)
        && clone.private.bio == bio && clone.private.dsk == this && clone.dev == bd && clone.status == None
        && ev == PtLog(clone.private, clone))
    {
      ev := [];
      if !ctxOk {
        bio.status := Some(-ENOMEM);
        return null, ev;
      }
      var io := new PtIoCtx.Zalloc();
      drv.log := drv.log + [Got(PtIoCtxMem(io))];
      if !cloneOk {
        drv.log := drv.log + [Put(PtIoCtxMem(io))];
        ghost var none: seq<Event<Resource>> := [];
        Bracket(PtIoCtxMem(io), none);
        ev := [Got(PtIoCtxMem(io))] + none + [Put(PtIoCtxMem(io))];
        bio.status := Some(-ENOMEM);
        return null, ev;
      }
      clone := new Bio();
      drv.log := drv.log + [Got(ClonedBio(clone))];
      io.bio := bio;
      io.dsk := this;
      expObj.ptIos := expObj.ptIos + 1;
      clone.dev := bd;
      clone.private := io;
      ev := PtLog(io, clone);   // cas_submit_bio
    }

    /** `_casdsk_exp_obj_bio_pt_io`, the completion of a clone: completes the original bio
      * with the clone's status, one clone fewer is in flight (BUG if none was), and the clone
      * and its context are freed. */
    method BioPtIoEnd(clone: Bio, error: int)
      requires clone.private != null && clone.private.bio != null && clone.private.dsk == this
      requires expObj != null && expObj.ptIos >= 1
      modifies clone.private.bio`status, expObj`ptIos, drv`log
      ensures clone.private.bio.status == Some(error)
      ensures expObj.ptIos == old(expObj.ptIos) - 1
      ensures drv.log == old(drv.log) + PtEndLog(clone.private, clone)
    {
      var io := clone.private;
      io.bio.status := Some(error);
      expObj.ptIos := expObj.ptIos - 1;
      drv.log := drv.log + PtEndLog(io, clone);   // bio_put, kmem_cache_free
    }

    /** `_casdsk_exp_obj_handle_bio`: dispatches a bio by mode. Attached: the owner's fast
      * path, then the saved entry point if there is no fast path or it declines;
      * pass-through: the forwarder; shutdown: completes the bio with -EIO; any other mode is
      * a BUG. */
    method HandleBio(bio: Bio, fastDeclines: bool, ctxOk: bool, cloneOk: bool)
      returns (calls: seq<Call>, clone: Bio?, ghost ev: seq<Event<Resource>>)
      requires expObj != null && !mode.Unknown? && (mode.Attached? ==> expObj.ops.Some?)
      modifies bio`status, expObj`ptIos, drv`log
      ensures calls == Route(mode, expObj.ops.Some? && expObj.ops.value.hasMakeRequest, fastDeclines)
      ensures drv.log == old(drv.log) + ev
      ensures !mode.PassThrough? ==> clone == null && ev == [] && expObj.ptIos == old(expObj.ptIos)
      ensures mode.Attached? ==> bio.status == old(bio.status)
      ensures mode.Shutdown? ==> bio.status == Some(-EIO)
      ensures mode.PassThrough? ==> ((clone != null <==> ctxOk && cloneOk)
        && expObj.ptIos == old(expObj.ptIos) + (if clone != null then 1 else 0)
        && bio.status == (if clone != null then old(bio.status) else Some(-ENOMEM)))
      ensures mode.PassThrough? && clone == null ==> RolledBack(ev)
      ensures mode.PassThrough? && clone != null ==> clone.private != null && ev == PtLog(clone.private, clone)
    {
      var hasFastPath := expObj.ops.Some? && expObj.ops.value.hasMakeRequest;
      calls := Route(mode, hasFastPath, fastDeclines);
      clone := null;
      ev := [];
      if mode.PassThrough? {
        clone, ev := HandleBioPt(bio, ctxOk, cloneOk);
      } else if mode.Shutdown? {
        bio.status := Some(-EIO);
      }
    }

    /** `_casdsk_exp_obj_make_rq_fn`: admits the request on a CPU, dispatches the bio and
      * ends the request on the same CPU, so every pending counter is as it was. */
    method MakeRequest(bio: Bio, attempts: seq<Attempt>, fastDeclines: bool, ctxOk: bool, cloneOk: bool)
      returns (calls: seq<Call>, clone: Bio?, ghost ev: seq<Event<Resource>>)
      requires Ready() && !mode.Unknown? && (mode.Attached? ==> expObj.ops.Some?)
      requires exists k :: 0 <= k < |attempts| && !attempts[k].sawTransition
      requires forall k :: 0 <= k < |attempts| ==> attempts[k].cpu < drv.ncpus
      modifies expObj.pendingRqs, bio`status, expObj`ptIos, drv`log
      ensures expObj.pendingRqs[..] == old(expObj.pendingRqs[..])
      ensures calls == Route(mode, expObj.ops.Some? && expObj.ops.value.hasMakeRequest, fastDeclines)
      ensures drv.log == old(drv.log) + ev
      ensures !mode.PassThrough? ==> clone == null && ev == [] && expObj.ptIos == old(expObj.ptIos)
      ensures mode.Attached? ==> bio.status == old(bio.status)
      ensures mode.Shutdown? ==> bio.status == Some(-EIO)
      ensures mode.PassThrough? ==> ((clone != null <==> ctxOk && cloneOk)
        && expObj.ptIos == old(expObj.ptIos) + (if clone != null then 1 else 0)
        && bio.status == (if clone != null then old(bio.status) else Some(-ENOMEM)))
      ensures mode.PassThrough? && clone == null ==> RolledBack(ev)
      ensures mode.PassThrough? && clone != null ==> clone.private != null && ev == PtLog(clone.private, clone)
    {
      var cpu := BeginRq(attempts);
      calls, clone, ev := HandleBio(bio, fastDeclines, ctxOk, cloneOk);
      EndRq(cpu);
    }
  }
}
