/**
 * Properties of the exported object's whole life, stated on the ledger entries each
 * operation of modules/cas_disk/exp_obj.c promises: what create, activate, lock, destroy,
 * unlock and free take from the kernel and give back, and the pass-through round trip.
 */
module Lifecycle {
  import opened Common
  import opened Rollback
  import opened ExpObj

  /** The record's memory once the name is duplicated, in allocation order. */
  function RecordMem(e: ExpObj): seq<Resource>
  {
    [ExpObjMem(e), PendingRqsMem(e), DevNameMem(e)]
  }

  /** A successful create, in the order it takes things. */
  lemma CreateTakes(d: Disk, e: ExpObj, owner: ModuleId, gd: Gendisk, q: Queue)
    ensures CreateLog(d, e, owner, gd, q)
      == Gets(RecordMem(e) + [KobjectReg(e), ModulePin(owner)] + [GendiskRef(gd), TagSet(d), QueueRef(q)])
  {
    var rs := RecordMem(e) + [KobjectReg(e), ModulePin(owner)] + [GendiskRef(gd), TagSet(d), QueueRef(q)];
    assert rs == [ExpObjMem(e), PendingRqsMem(e), DevNameMem(e), KobjectReg(e), ModulePin(owner),
      GendiskRef(gd), TagSet(d), QueueRef(q)];
  }

  /** What create's gendisk, tag-set and queue steps and activate take, in order. */
  function DeviceRes(d: Disk, e: ExpObj, gd: Gendisk, q: Queue): seq<Resource>
  {
    [GendiskRef(gd), TagSet(d), QueueRef(q), DiskAdded(gd), BdClaim(d), BlockdevLink(e)]
  }

  /** The record, its kobject and the owner pin: what create holds beyond the device. */
  function RecordRes(e: ExpObj, owner: ModuleId): seq<Resource>
  {
    RecordMem(e) + [KobjectReg(e)] + [ModulePin(owner)]
  }

  lemma CreateActivateTakes(d: Disk, e: ExpObj, owner: ModuleId, gd: Gendisk, q: Queue)
    ensures CreateLog(d, e, owner, gd, q) + ActivateLog(d, e, gd)
      == Gets(RecordRes(e, owner) + DeviceRes(d, e, gd, q))
  {
    CreateTakes(d, e, owner, gd, q);
  }

  lemma DestroyGives(d: Disk, e: ExpObj, gd: Gendisk, q: Queue)
    ensures DestroyLog(d, e, true, q, gd) == PutsRev(DeviceRes(d, e, gd, q))
  {
  }

  /**
   * Destroying an activated object undoes activate and the gendisk, tag-set and queue steps
   * of create in exact reverse order: what is left held is the record, its kobject and the
   * owner pin, which `casdsk_exp_obj_free` gives back.
   */
  lemma DestroyUndoesActivateAndCreate(d: Disk, e: ExpObj, owner: ModuleId, gd: Gendisk, q: Queue)
    ensures Replay([], CreateLog(d, e, owner, gd, q) + ActivateLog(d, e, gd) + DestroyLog(d, e, true, q, gd))
      == Some(RecordRes(e, owner))
  {
    var kept := RecordRes(e, owner);
    var dev := DeviceRes(d, e, gd, q);
    CreateActivateTakes(d, e, owner, gd, q);
    DestroyGives(d, e, gd, q);
    var none: seq<Resource> := [];
    ReplayAppend(none, Gets(kept + dev), PutsRev(dev));
    ReplayGets(none, kept + dev);
    assert none + (kept + dev) == kept + dev;
    ReplayPutsRev(kept, dev);
  }

  /** Everything a whole life takes, in the order it takes it. */
  function LifeTakes(d: Disk, e: ExpObj, owner: ModuleId, gd: Gendisk, q: Queue): seq<Resource>
  {
    RecordRes(e, owner) + DeviceRes(d, e, gd, q) + [LockedBdev(e)]
  }

  /** Everything a whole life gives back, last given first. */
  function LifeGives(d: Disk, e: ExpObj, owner: ModuleId, gd: Gendisk, q: Queue): seq<Resource>
  {
    [ModulePin(owner)] + (RecordMem(e) + [KobjectReg(e)]) + [LockedBdev(e)] + DeviceRes(d, e, gd, q)
  }

  lemma LifeStartTakes(d: Disk, e: ExpObj, owner: ModuleId, gd: Gendisk, q: Queue)
    ensures CreateLog(d, e, owner, gd, q) + ActivateLog(d, e, gd) + [Got(LockedBdev(e))]
      == Gets(LifeTakes(d, e, owner, gd, q))
  {
    CreateTakes(d, e, owner, gd, q);
  }

  lemma LifeEndGives(d: Disk, e: ExpObj, owner: ModuleId, gd: Gendisk, q: Queue)
    ensures DestroyLog(d, e, true, q, gd) + [Put(LockedBdev(e))] + FreeLog(e, RecordMem(e), Some(owner))
      == PutsRev(LifeGives(d, e, owner, gd, q))
  {
    assert PutsRev(RecordMem(e)) == [Put(DevNameMem(e)), Put(PendingRqsMem(e)), Put(ExpObjMem(e))];
  }

  /**
   * A whole life — create, activate, lock, destroy, unlock, free — gives back everything it
   * took from the kernel: each resource as many times as it was taken.
   */
  lemma LifecycleGivesBackAll(d: Disk, e: ExpObj, owner: ModuleId, gd: Gendisk, q: Queue)
    ensures
      var log := CreateLog(d, e, owner, gd, q) + ActivateLog(d, e, gd) + [Got(LockedBdev(e))]
        + DestroyLog(d, e, true, q, gd) + [Put(LockedBdev(e))] + FreeLog(e, RecordMem(e), Some(owner));
      Acquired(log) == Released(log)
  {
    var takes := LifeTakes(d, e, owner, gd, q);
    var gives := LifeGives(d, e, owner, gd, q);
    var first := CreateLog(d, e, owner, gd, q) + ActivateLog(d, e, gd) + [Got(LockedBdev(e))];
    var second := DestroyLog(d, e, true, q, gd) + [Put(LockedBdev(e))] + FreeLog(e, RecordMem(e), Some(owner));
    LifeStartTakes(d, e, owner, gd, q);
    LifeEndGives(d, e, owner, gd, q);
    assert first + second == CreateLog(d, e, owner, gd, q) + ActivateLog(d, e, gd) + [Got(LockedBdev(e))]
      + DestroyLog(d, e, true, q, gd) + [Put(LockedBdev(e))] + FreeLog(e, RecordMem(e), Some(owner));
    AccountsAppend(Gets(takes), PutsRev(gives));
    AccountsGets(takes);
    AccountsPutsRev(gives);
    LifeSameResources(d, e, owner, gd, q);
  }

  /** The code `casdsk_exp_obj_lock` returns for the given outcomes of bdget_disk and the open count. */
  function LockCode(bdgetOk: bool, openers: nat): int
  {
    if !bdgetOk then -ENAVAIL else if openers > 0 then -EBUSY else 0
  }

  /** The code of create, activate and lock run in turn, stopping at the first that fails. */
  function BringUpCode(devName: string, hideFails: bool, ops: Ops, env: CreateEnv,
    pathOk: bool, devExists: bool, claim: int, link: int, bdgetOk: bool, openers: nat): int
  {
    var c := FirstFailure(CreateCodes(devName, hideFails, ops, env));
    var a := FirstFailure(ActivateCodes(pathOk, devExists, claim, link));
    if c != 0 then c else if a != 0 then a else LockCode(bdgetOk, openers)
  }

  /**
   * The first half of a life run through the operations themselves: create, activate and
   * lock, stopping at the first step that fails. When none fails, the ledger entries added
   * are what create, activate and lock promise to take.
   */
  method BringUp(d: Disk, devName: string, owner: ModuleId, ops: Ops, env: CreateEnv,
    pathOk: bool, devExists: bool, claim: int, link: int, bdgetOk: bool, openers: nat)
    returns (r: int, ghost ev: seq<Event<Resource>>)
    requires d.expObj == null
    modifies d`expObj, d`gdFlags, d`gdMinors, d`mode, d.bd.disk`parts, d.bd.disk`flags, d.bd.disk`minors
    modifies d.drv`log
    ensures d.drv.log == old(d.drv.log) + ev
    ensures r == BringUpCode(devName, old(d.HidingFails(env.blkpgDel)), ops, env,
      pathOk, devExists, claim, link, bdgetOk, openers)
    ensures r == 0 ==> (d.expObj != null && fresh(d.expObj) && d.expObj.gd != null && d.expObj.queue != null
      && d.expObj.pendingRqs != null && d.expObj.activated && d.expObj.lockedBd
      && d.expObj.Mem() == RecordMem(d.expObj) && d.expObj.owner == Some(owner)
      && ev == CreateLog(d, d.expObj, owner, d.expObj.gd, d.expObj.queue)
        + ActivateLog(d, d.expObj, d.expObj.gd) + [Got(LockedBdev(d.expObj))])
    ensures r == 0 && d.bd.whole ==> CoreHidden(d, old(d.bd.disk.flags), old(d.bd.disk.minors),
      PartsLeft(true, old(d.bd.disk.flags), old(d.bd.disk.minors), old(d.bd.disk.parts), env.blkpgDel))
  {
    ghost var code := BringUpCode(devName, d.HidingFails(env.blkpgDel), ops, env,
      pathOk, devExists, claim, link, bdgetOk, openers);
    r, ev := Created(d, devName, owner, ops, env);
    if r != 0 {
      return;
    }
    ghost var e, gd, q := d.expObj, d.expObj.gd, d.expObj.queue;
    ghost var ev1, ev2;
    r, ev1 := d.Activate(pathOk, devExists, claim, link);
    ev := ev + ev1;
    if r != 0 {
      return;
    }
    r, ev2 := d.Lock(bdgetOk, openers);
    assert r == code;
    ev := ev + ev2;
  }

  /** A whole core disk that had flags f and m minors, hidden by a successful create: the
    * driver's bits and the minor count saved, the bits cleared, one minor, and ps left. */
  ghost predicate CoreHidden(d: Disk, f: Flags, m: nat, ps: PartList)
    reads d, d.bd.disk
  {
    d.gdFlags == SavedFlags(f) && d.gdMinors == m && d.CoreIs(HiddenFlags(f), 1) && d.bd.disk.parts == ps
  }

  /** A create that succeeds found the core disk's partitions deletable: set_dev_t returns
    * -EINVAL whenever hiding them fails. */
  lemma CreateSuccessHides(devName: string, hideFails: bool, ops: Ops, env: CreateEnv)
    requires FirstFailure(CreateCodes(devName, hideFails, ops, env)) == 0
    ensures !hideFails && env.firstMinor >= 0
  {
    var codes := CreateCodes(devName, hideFails, ops, env);
    FailingStepIsFirst(codes);
    assert codes[DevTStep] == DeviceCodes(hideFails, ops, env)[0];
  }

  /** Create, seen from the rest of a life: on success the record's fields a life uses. */
  method Created(d: Disk, devName: string, owner: ModuleId, ops: Ops, env: CreateEnv)
    returns (r: int, ghost ev: seq<Event<Resource>>)
    requires d.expObj == null
    modifies d`expObj, d`gdFlags, d`gdMinors, d.bd.disk`parts, d.bd.disk`flags, d.bd.disk`minors, d.drv`log
    ensures d.drv.log == old(d.drv.log) + ev
    ensures r == FirstFailure(CreateCodes(devName, old(d.HidingFails(env.blkpgDel)), ops, env))
    ensures r != 0 ==> d.expObj == null
    ensures r == 0 ==> (d.expObj != null && fresh(d.expObj) && d.expObj.gd != null && d.expObj.queue != null
      && d.expObj.pendingRqs != null && !d.expObj.activated
      && d.expObj.Mem() == RecordMem(d.expObj) && d.expObj.owner == Some(owner)
      && ev == CreateLog(d, d.expObj, owner, d.expObj.gd, d.expObj.queue))
    ensures r == 0 && d.bd.whole ==> CoreHidden(d, old(d.bd.disk.flags), old(d.bd.disk.minors),
      PartsLeft(true, old(d.bd.disk.flags), old(d.bd.disk.minors), old(d.bd.disk.parts), env.blkpgDel))
  {
    ghost var hideFails := d.HidingFails(env.blkpgDel);
    r, ev := d.Create(devName, owner, ops, env);
    if r == 0 {
      CreateSuccessHides(devName, hideFails, ops, env);
      assert d.expObj.Mem() == RecordMem(d.expObj);
    }
  }

  /**
   * The second half of a life: destroy, unlock and free an activated, locked object. The
   * record is gone and the ledger entries added are what destroy, unlock and free promise
   * to give back.
   */
  method TearDown(d: Disk, ghost owner: ModuleId) returns (ghost ev: seq<Event<Resource>>)
    requires d.expObj != null && d.expObj.gd != null && d.expObj.queue != null
    requires d.expObj.pendingRqs != null && d.expObj.activated && d.expObj.lockedBd
    requires d.expObj.Mem() == RecordMem(d.expObj) && d.expObj.owner == Some(owner)
    modifies d`expObj, d`mode, d.bd.disk`flags, d.bd.disk`minors, d.bd.disk`parts, d.expObj`lockedBd, d.drv`log
    ensures d.expObj == null && d.drv.log == old(d.drv.log) + ev
    ensures
      var e := old(d.expObj);
      ev == DestroyLog(d, e, true, e.queue, e.gd) + [Put(LockedBdev(e))] + FreeLog(e, RecordMem(e), Some(owner))
    ensures d.bd.whole ==> (d.bd.disk.minors == old(d.gdMinors) && d.bd.disk.flags == old(d.bd.disk.flags) + old(d.gdFlags)
      && d.bd.disk.parts == Rescanned(d.bd.disk.flags, d.bd.disk.minors, old(d.bd.disk.parts), d.bd.disk.table))
  {
    var e := d.expObj;
    var r;
    r, ev := d.Destroy();
    r := d.Unlock();
    d.Free();
    ev := ev + [Put(LockedBdev(e))] + FreeLog(e, RecordMem(e), Some(owner));
  }

  /**
   * A whole life run through the operations themselves, stopping at the first step that
   * fails. When none fails, the record is gone and the ledger entries the life added give
   * back everything they took, each as many times as it was taken.
   */
  method WholeLife(d: Disk, devName: string, owner: ModuleId, ops: Ops, env: CreateEnv,
    pathOk: bool, devExists: bool, claim: int, link: int, bdgetOk: bool, openers: nat)
    returns (r: int, ghost ev: seq<Event<Resource>>)
    requires d.expObj == null
    modifies d`expObj, d`gdFlags, d`gdMinors, d`mode, d.bd.disk`parts, d.bd.disk`flags, d.bd.disk`minors
    modifies d.drv`log
    ensures d.drv.log == old(d.drv.log) + ev
    ensures r == BringUpCode(devName, old(d.HidingFails(env.blkpgDel)), ops, env,
      pathOk, devExists, claim, link, bdgetOk, openers)
    ensures r == 0 ==> d.expObj == null && Acquired(ev) == Released(ev)
    ensures r == 0 && d.bd.whole ==> (d.CoreIs(old(d.bd.disk.flags), old(d.bd.disk.minors))
      && d.bd.disk.parts == PartsAfter(true, old(d.bd.disk.flags), old(d.bd.disk.minors), old(d.bd.disk.parts),
        d.bd.disk.table, env.blkpgDel, true))
  {
    ghost var code := BringUpCode(devName, d.HidingFails(env.blkpgDel), ops, env,
      pathOk, devExists, claim, link, bdgetOk, openers);
    r, ev := BringUp(d, devName, owner, ops, env, pathOk, devExists, claim, link, bdgetOk, openers);
    assert r == code;
    if r != 0 {
      return;
    }
    var e := d.expObj;
    ghost var gd, q := e.gd, e.queue;
    ghost var up := ev;
    ghost var down := TearDown(d, owner);
    ev := up + down;
    assert ev == CreateLog(d, e, owner, gd, q) + ActivateLog(d, e, gd) + [Got(LockedBdev(e))]
      + DestroyLog(d, e, true, q, gd) + [Put(LockedBdev(e))] + FreeLog(e, RecordMem(e), Some(owner));
    LifecycleGivesBackAll(d, e, owner, gd, q);
  }

  lemma LifeSameResources(d: Disk, e: ExpObj, owner: ModuleId, gd: Gendisk, q: Queue)
    ensures multiset(LifeTakes(d, e, owner, gd, q)) == multiset(LifeGives(d, e, owner, gd, q))
  {
    Shuffle(RecordMem(e) + [KobjectReg(e)], [ModulePin(owner)], DeviceRes(d, e, gd, q), [LockedBdev(e)]);
  }

  lemma Shuffle<T>(a: seq<T>, b: seq<T>, c: seq<T>, d: seq<T>)
    ensures multiset(a + b + c + d) == multiset(b + a + d + c)
  {
    calc {
      multiset(a + b + c + d);
      multiset(a) + multiset(b) + multiset(c) + multiset(d);
      multiset(b) + multiset(a) + multiset(d) + multiset(c);
      multiset(b + a + d + c);
    }
  }

  /**
   * A clone sent by the pass-through forwarder and then completed gives back its clone and
   * its context, last taken first.
   */
  lemma PassThroughRoundTrip(c: PtIoCtx, clone: Bio)
    ensures RolledBack(PtLog(c, clone) + PtEndLog(c, clone))
  {
    var none: seq<Event<Resource>> := [];
    Bracket(ClonedBio(clone), none);
    var inner := [Got(ClonedBio(clone))] + none + [Put(ClonedBio(clone))];
    Bracket(PtIoCtxMem(c), inner);
    assert PtLog(c, clone) + PtEndLog(c, clone) == [Got(PtIoCtxMem(c))] + inner + [Put(PtIoCtxMem(c))];
  }
}
