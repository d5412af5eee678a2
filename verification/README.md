# Exported object of cas_disk, and the extended error messages of casadm

This project models two parts of open-cas-linux in Dafny and proves properties of the model.

The first part is the exported object of the `cas_disk` kernel module (`modules/cas_disk/exp_obj.c`). This is the virtual block device a cache presents on top of its core device. The model covers:

- the three-cache pool of the module;
- the record of an exported object: its allocation, release and owner-module pin;
- the ten-step `create` chain and its goto-unwinding;
- `activate`, `lock`, `unlock`, `destroy`, `attach` and `dettach`;
- hiding the core disk's partitions, and restoring its flags and minor count;
- request admission on a per-CPU pending counter, and dispatch of a bio by disk mode;
- the pass-through forwarder and its completion.

The second part is `cas_strerr` of the administration tool (`casadm/extended_err_msg.c`). It is a linear search of a static table from CAS error codes to messages, with `strerror` as the fallback.

## How the model is built

**Classes and fields.** `exp_obj.c` changes kernel objects in place, so it becomes classes:

- `CasdskModule`: the module's global state;
- `Disk`: `casdsk_disk`;
- `ExpObj`: `casdsk_exp_obj`;
- `Gendisk`, `BlockDev`, `Queue`, `Bio` and `PtIoCtx`.

The fields are the ones the C code assigns. Other details:

- The per-CPU pending counters are an `array<int>`.
- The partition table of the core disk is a sequence of increasing partition numbers.
- A gendisk's flags word is the set of its bit numbers:
  - `GENHD_FL_EXT_DEVT` is bit 6 (0x40) and `GENHD_FL_NO_PART_SCAN` is bit 9 (0x200);
  - `&`, `|` and `& ~` become intersection, union and difference.

**Kernel and owner calls.** Every call into the kernel or into the owner's callbacks becomes an outcome the caller passes in. Examples:

- an allocation that succeeds or not;
- the code `kobject_add` returns;
- per partition, the code the `BLKPG_DEL_PARTITION` ioctl returns;
- for `begin_rq`, the sequence of (CPU, transition seen) passes of its retry loop.

`BUG()`/`BUG_ON` conditions become preconditions.

**The ledger.** What the driver takes from and gives back to the kernel is recorded in a ghost ledger, `CasdskModule.log`. It holds `Got r` and `Put r` entries, where `r` is one of: a cache, the record memory, a kobject registration, a module pin, a gendisk, a tag set, a queue, an added disk, a claim, a sysfs link, a locked block device, a pass-through context or a clone.

`Rollback.RolledBack(ev)` says that the entries `ev` are a stack discipline that ends empty: every put matches the latest unmatched get. An error path of a goto chain is proved to be such a rollback.

**Goto chains.** In `create`, every error label is a method of `Disk`: `CreateRecord`, `CreateNamed`, `CreateRegistered`, `CreateOwned`, `CreateGendisk`, `CreateDevice`, `CreateTagged` and `CreateQueue`. Each one:

1. performs its step;
2. calls the next stage;
3. undoes its own step if a later one failed.

The code each step returns is listed by a function (`CreateCodes`, `ActivateCodes`). The result of the chain is `Rollback.FirstFailure` of that list.

## Model

| member | source | states |
|---|---|---|
| ExpObj.CasdskModule.InitExpObjs | modules/cas_disk/exp_obj.c:22-58 | creates the three caches in order; 0 when all succeed, else -ENOMEM; on failure exactly the caches already created are destroyed, last first, so the ledger entries are a rollback; the pending-counter object size is set from the CPU count |
| ExpObj.CasdskModule.DeinitExpObjs | modules/cas_disk/exp_obj.c:60-67 | destroys the three caches in reverse creation order |
| ExpObj.PendingRqsObjSize | modules/cas_disk/exp_obj.c:35-38 | the pending-counter object size is the larger of one atomic per CPU and the minimum cache object size |
| ExpObj.Route | modules/cas_disk/exp_obj.c:69-81 | attached mode: the owner's fast path first when it exists; the saved make_request_fn exactly when there is no fast path or it declines; pass-through: the forwarder; shutdown: completion with -EIO |
| ExpObj.Disk.HandleBio | modules/cas_disk/exp_obj.c:135-147 | the callbacks performed are `Route` of the mode; shutdown completes the bio with -EIO; pass-through raises `pt_ios` by one exactly when a clone is sent, else completes the bio with -ENOMEM; attached mode leaves the bio and the ledger alone; outside pass-through no clone is made and the ledger is unchanged; a pass-through that sends no clone leaves ledger entries that are a rollback, and one that sends a clone holds its context and the clone; an unknown mode is excluded (BUG) |
| ExpObj.Disk.HandleBioPt | modules/cas_disk/exp_obj.c:104-133 | the clone is sent exactly when both allocations succeed; then `pt_ios` rises by one and the fresh context ties the clone to the original bio and this disk; otherwise the bio completes with -ENOMEM, `pt_ios` is unchanged and a context already allocated is freed (the ledger entries are a rollback) |
| ExpObj.Disk.BioPtIoEnd | modules/cas_disk/exp_obj.c:83-102 | completes the original bio with the clone's status, lowers `pt_ios` by one (requires one in flight, the BUG), frees the clone and then its context |
| Lifecycle.PassThroughRoundTrip | modules/cas_disk/exp_obj.c:83-133 | forwarding a bio and completing its clone gives back everything the forwarder took, last taken first |
| ExpObj.Disk.EndRq | modules/cas_disk/exp_obj.c:149-152 | the counter of the given CPU drops by one and no other counter changes |
| ExpObj.Admission | modules/cas_disk/exp_obj.c:154-177 | the pass that admits a request is the first whose re-check saw no mode transition |
| ExpObj.Disk.BeginRq | modules/cas_disk/exp_obj.c:154-177 | the request is admitted on the CPU of the first pass that saw no transition; that CPU's counter is raised by exactly one, and each retried pass's increment is taken back |
| ExpObj.Disk.MakeRequest | modules/cas_disk/exp_obj.c:179-197 | begin/dispatch/end leaves every pending counter as it was; the callbacks performed are `Route` of the mode; shutdown completes with -EIO; attached mode leaves the bio alone; outside pass-through no clone is made and neither `pt_ios` nor the ledger changes; in pass-through a clone is sent exactly when both allocations succeed, `pt_ios` then rises by one and the ledger holds the context and the clone, and otherwise the bio completes with -ENOMEM and the ledger entries are a rollback |
| ExpObj.QueueRq | modules/cas_disk/exp_obj.c:431-456 | with the owner's queue_rq_fn the call is bracketed by pending_rq_inc and pending_rq_dec and its status returned; without it there is no request (BUG_ON) and the status is BLK_STS_OK |
| ExpObj.NextPartNo | modules/cas_disk/exp_obj.c:199-218 | 0 exactly when the disk has no partition; otherwise the lowest partition number present |
| ExpObj.Disk.DelPartitions | modules/cas_disk/exp_obj.c:220-247 | deletes the lowest partition until none is left (returns 0) or a deletion fails (returns its code); the partitions from the failed one on remain |
| ExpObj.HiddenFlags | modules/cas_disk/exp_obj.c:249-330 | the hidden flags carry none of the driver's bits, and OR-ing the saved bits back gives the original flags: hide then clear is a round trip |
| ExpObj.Disk.HideParts | modules/cas_disk/exp_obj.c:255-286 | a partition is left alone; on a whole disk that may carry partitions a failed deletion returns -EINVAL with flags, minors and the saved values unchanged, and the partitions are read back from the medium when the disk's flags allow a scan; on success the driver's bits and the minor count are saved, the bits cleared and the minors set to 1, and the partitions are what deletion left (the rescan of a disk with one minor reads nothing) |
| ExpObj.Disk.ClearDevT | modules/cas_disk/exp_obj.c:319-330 | on a whole disk restores the saved minor count, ORs the saved bits back and rescans, so the partitions are read back from the medium when the restored flags allow it; a partition is left alone |
| ExpObj.Disk.SetDevT | modules/cas_disk/exp_obj.c:288-317 | -EINVAL when hiding fails or the minor allocation fails; on success the exported gendisk gets the first minor, the driver's major, as many minors as the core disk may carry (1 over a partition) and the saved flag bits; the core disk's partitions are what `HideParts` leaves |
| ExpObj.Disk.ExpObjAlloc | modules/cas_disk/exp_obj.c:336-368 | -ENOMEM unless both the record and the counters are allocated, in which case the record is fresh, zeroed, with one zero counter per CPU; a failure frees the record again and leaves no exported object |
| ExpObj.ExpObj.ReleaseMem | modules/cas_disk/exp_obj.c:386-391 | frees the name (when there is one), the counters and the record, last allocated first |
| ExpObj.ExpObj.KobjRelease | modules/cas_disk/exp_obj.c:393-411 | frees the record, then drops the owner pin only when an owner is recorded |
| ExpObj.Disk.Free | modules/cas_disk/exp_obj.c:370-383 | without an exported object nothing happens; otherwise the kobject is unregistered, the record freed, the recorded owner's pin dropped, and the exported object forgotten |
| ExpObj.Disk.InitKobject | modules/cas_disk/exp_obj.c:417-429 | returns kobject_add's code, and the kobject is registered exactly when it is 0 |
| ExpObj.Disk.InitTagSet | modules/cas_disk/exp_obj.c:476-493 | returns the tag-set allocation's code, and the tag set is held exactly when it is 0 |
| ExpObj.ClaimedHctx | modules/cas_disk/exp_obj.c:462-474 | a hardware context with software contexts and tags gets this disk as driver data; any other is unchanged |
| ExpObj.Disk.InitQueues | modules/cas_disk/exp_obj.c:462-474 | every hardware context of the queue becomes its `ClaimedHctx` |
| ExpObj.Disk.CreateQueue | modules/cas_disk/exp_obj.c:556-586 | returns the first failing code of blk_mq_init_queue and set_geometry; on success the queue is wired to the disk and gendisk with the driver's entry point; a set_geometry failure releases the queue only through cleanup_queue |
| ExpObj.Disk.CreateTagged | modules/cas_disk/exp_obj.c:551-588 | the tag set is freed when a later step fails (error_init_queue); after a set_geometry failure without cleanup_queue every resource of the stage except the queue is given back as often as it was taken |
| ExpObj.Disk.CreateDevice | modules/cas_disk/exp_obj.c:547-590 | the core disk's flags and minors are put back when a step after set_dev_t fails (error_init_tag_set); the core disk's partition list is what deletion left (none, on a whole disk that may carry partitions) on success and after a failed minor allocation, and is read back from the medium (when the flags allow a scan) after a failed hiding or a failure of a later step; after a set_geometry failure without cleanup_queue everything but the queue is given back |
| ExpObj.Disk.CreateGendisk | modules/cas_disk/exp_obj.c:540-592 | the gendisk is put when a later step fails (error_dev_t); after a set_geometry failure without cleanup_queue everything but the queue is given back; a partition core disk is never touched; once set_dev_t has run on a whole disk, its partition list is what deletion left when the chain succeeds or the minor allocation fails, and the list read back from the medium (when the flags allow a scan) when hiding failed or a later step failed |
| ExpObj.Disk.CreateOwned | modules/cas_disk/exp_obj.c:532-595 | on failure the owner pin is dropped and `owner` cleared (error_alloc_disk), so the release callback cannot drop it twice; on success owner and ops are recorded; after a set_geometry failure without cleanup_queue everything but the queue is given back; a partition core disk is never touched; once set_dev_t has run on a whole disk, its partition list is what deletion left when the chain succeeds or the minor allocation fails, and the list read back from the medium (when the flags allow a scan) when hiding failed or a later step failed |
| ExpObj.Disk.CreateRegistered | modules/cas_disk/exp_obj.c:526-598 | a failed kobject_add frees the record directly; a later failure frees it through casdsk_exp_obj_free; either way the exported object is forgotten; after a set_geometry failure without cleanup_queue everything the record's memory and later steps took, except the queue, is given back; a partition core disk is never touched; once set_dev_t has run on a whole disk, its partition list is what deletion left when the chain succeeds or the minor allocation fails, and the list read back from the medium (when the flags allow a scan) when hiding failed or a later step failed |
| ExpObj.Disk.CreateNamed | modules/cas_disk/exp_obj.c:519-600 | a failed kstrdup frees the record and returns -ENOMEM; after a set_geometry failure without cleanup_queue everything but the queue is given back; a partition core disk is never touched; once set_dev_t has run on a whole disk, its partition list is what deletion left when the chain succeeds or the minor allocation fails, and the list read back from the medium (when the flags allow a scan) when hiding failed or a later step failed |
| ExpObj.Disk.CreateRecord | modules/cas_disk/exp_obj.c:513-602 | the allocation and the later steps, with the rollback stated from the allocation of the record; after a set_geometry failure without cleanup_queue the entries keep exactly one queue; a partition core disk is never touched; once set_dev_t has run on a whole disk, its partition list is what deletion left when the chain succeeds or the minor allocation fails, and the list read back from the medium (when the flags allow a scan) when hiding failed or a later step failed |
| ExpObj.Disk.Create | modules/cas_disk/exp_obj.c:495-603 | returns the code of the first failing step; a name of DISK_NAME_LEN characters or more gives -EINVAL with no ledger entry and the core disk untouched; any failure leaves no exported object and its ledger entries are a rollback, except a set_geometry failure without cleanup_queue, whose entries give back everything but one queue; a partition core disk is never touched; a whole core disk is untouched when the failure precedes set_dev_t, gets its flags and minors back after it, and is left hidden by a failed minor allocation; its partition list is what deletion left after success or a failed minor allocation, and is read back from the medium (when the flags allow a scan) after a failed hiding or a later failure; success yields a fresh, unactivated, unlocked record with owner, ops, gendisk and queue wired up, and a ledger entry per step |
| ExpObj.Disk.Activate | modules/cas_disk/exp_obj.c:622-688 | returns the first failing code of the path buffer, the /dev check (-EEXIST), the claim and the link; `activated` is set exactly on success; a failure of claim or link undoes the later steps first and deletes the gendisk; the mode set to attached is not reverted |
| ExpObj.Disk.Lock | modules/cas_disk/exp_obj.c:698-725 | -ENAVAIL when bdget_disk fails; -EBUSY (after unlocking again) when the device has openers; the device is held exactly on success |
| ExpObj.Disk.Unlock | modules/cas_disk/exp_obj.c:728-741 | requires the device to be locked; releases it and returns 0 |
| ExpObj.Disk.Destroy | modules/cas_disk/exp_obj.c:744-776 | -ENODEV without an exported object, nothing changed; otherwise requires the lock; an activated object loses its link, claim and added gendisk, and a whole core disk gets its flags and minors back and its partitions read back from the medium when the flags allow a scan; the queue (if any), the tag set and the gendisk are always released, the mode becomes unknown, and 0 is returned |
| ExpObj.Disk.Detach | modules/cas_disk/exp_obj.c:779-787 | drops the owner pin if there is an owner and clears owner and ops |
| ExpObj.Disk.Attach | modules/cas_disk/exp_obj.c:789-800 | -ENAVAIL with owner, ops and the ledger unchanged when the pin fails; otherwise pins the owner and records owner and ops |
| Lifecycle.DestroyUndoesActivateAndCreate | modules/cas_disk/exp_obj.c:495-776 | destroy gives back what activate and the gendisk, tag-set and queue steps of create took, in exact reverse order, leaving the record, its kobject and the owner pin |
| Lifecycle.Created | modules/cas_disk/exp_obj.c:495-603 | returns create's code, the first failing step's, and a failed create leaves no exported object; a successful create leaves an unactivated record with gendisk, queue, counters, name and owner, and the ledger entries `CreateLog`; a whole core disk is then hidden: its driver bits and minor count are saved, it carries neither the bits nor more than one minor, and its partitions are what deletion left |
| Lifecycle.CreateSuccessHides | modules/cas_disk/exp_obj.c:288-310 | a create whose codes all succeed went through a successful hiding and a successful minor allocation |
| Lifecycle.BringUp | modules/cas_disk/exp_obj.c:495-725 | create, activate and lock in turn: the result is create's code when it fails, else activate's when it fails, else lock's (`BringUpCode`); when all succeed the record is activated and locked, the ledger entries are create's, activate's and the lock's, in that order, and a whole core disk is hidden as `Created` states |
| Lifecycle.TearDown | modules/cas_disk/exp_obj.c:370-776 | destroy, unlock and free of an activated, locked record forget it and add destroy's entries, the unlock and free's entries; a whole core disk gets the saved flag bits and minor count back and its partitions rescanned |
| Lifecycle.WholeLife | modules/cas_disk/exp_obj.c:370-776 | run through the operations themselves, the result is `BringUpCode` of the step outcomes, so it is 0 exactly when create, activate and lock all succeed; then the record is forgotten and every resource is given back as many times as it was taken; a whole core disk ends with its original flags and minor count, and its partitions read back from the medium when the flags allow a scan |
| Lifecycle.LifecycleGivesBackAll | modules/cas_disk/exp_obj.c:370-776 | create, activate, lock, destroy, unlock and free together give back every resource as many times as they took it |
| Rollback.RolledBackLeaksNothing | modules/cas_disk/exp_obj.c:584-602 | an error path whose entries are a rollback gives back exactly what it took |
| Rollback.UnwindBalanced | modules/cas_disk/exp_obj.c:47-57 | taking resources and giving them back in reverse order is a rollback on any stack |
| ExtendedErrMsg.FirstMatch | casadm/extended_err_msg.c:241-244 | the index found holds the code and no earlier row does; None exactly when no row holds it |
| ExtendedErrMsg.Search | casadm/extended_err_msg.c:234-244 | the indexed loop over the table finds exactly `FirstMatch` |
| ExtendedErrMsg.StrErr | casadm/extended_err_msg.c:231-247 | no message exactly for code 0 |
| ExtendedErrMsg.CasStrErr | casadm/extended_err_msg.c:231-247 | the loop-based lookup over the static table returns what `StrErr` specifies |
| ExtendedErrMsg.StrErrIgnoresSign | casadm/extended_err_msg.c:239 | for a nonzero code, `cas_strerr(-x)` equals `cas_strerr(x)`, and there is a message |
| ExtendedErrMsg.StrErrFirstMatchingRow | casadm/extended_err_msg.c:14-244 | a nonzero code whose first matching row is i yields row i's message |
| ExtendedErrMsg.StrErrFallback | casadm/extended_err_msg.c:246 | a nonzero code that no row carries yields strerror of its absolute value |
| ExtendedErrMsg.FirstMatchIgnoresLaterRows | casadm/extended_err_msg.c:241-243 | rows after the first match never change the result |

## Source behaviour the contracts show

Four behaviours of `exp_obj.c` follow from the contracts. They may be intended, so they are recorded here rather than corrected:

- When the minor allocation of `_casdsk_exp_obj_set_dev_t` fails after the partitions were hidden, the error_dev_t path never calls `_casdsk_exp_obj_clear_dev_t` (modules/cas_disk/exp_obj.c:547-549, 591-592). The core disk keeps its hidden flags and single minor. `CoreAfter` in the contract of `Create` states this.
- Destroying an object that was never activated does not give the core disk back its flags and minors (modules/cas_disk/exp_obj.c:759-764). `Destroy` states `unchanged(bd.disk)` for that case.
- After a `set_geometry` failure when the owner has no `cleanup_queue`, the driver never calls `cleanup_queue` or `blk_cleanup_queue` for the queue (modules/cas_disk/exp_obj.c:584-586). Whether `put_disk` drops it depends on the kernel, which is not part of this model. `CreateQueue` states that the entries hold the queue's `Got` alone, and `Create` that exactly one queue is kept.
- Attaching over an exported object that already has an owner pins the new module and overwrites `owner` without `module_put` of the old one (modules/cas_disk/exp_obj.c:789-799). `Attach` states that the owner becomes the new module and that the ledger gains a single `Got` of its pin and no `Put`.

## Left out

- Concurrency and atomics. Counters are plain integers and every operation runs alone. Three loops only end because other threads drain the counters, so they are not modelled:
  - the drain in `_casdsk_exp_obj_wait_for_pending_rqs`;
  - the polling in `casdsk_exp_obj_prepare_attached` and `prepare_shutdown`;
  - the `io_schedule` wait of `_casdsk_exp_obj_begin_rq` (modules/cas_disk/exp_obj.c:802-842, 161-162).
- `casdsk_exp_obj_prepare_pt` is left out. It is the same drain plus `_casdsk_exp_obj_flush_queue`, a block-layer call.
- The getters `casdsk_exp_obj_get_queue`, `casdsk_exp_obj_get_gendisk` and `casdsk_exp_obj_activated` are left out. They read one field, and the model reads that field directly.
- Some side effects with no modellable result are left out:
  - `printk` and the debug traces;
  - `gd->fops`;
  - the tag-set tuning constants (`num_online_cpus`, `BLKDEV_MAX_RQ`, `NUMA_NO_NODE`, the flags).
- The kobject's own reference count is not modelled. `kobject_put` is modelled as unregistering the kobject and then running the release callback at once.
- A failing `kobject_add` keeps the reference `kobject_init` took. The model only frees the record, as `__casdsk_exp_obj_release` does.
- The minors bitmap of `casdsk_disk_allocate_minors` is not modelled. The minor allocation is an outcome passed in; `modules/cas_disk/disk.c` is not part of this model.
- `strlcpy` into `gd->disk_name` is modelled as a plain copy. `create` has already checked that the name fits.
- The `PATH_MAX` buffer of `activate` is not in the ledger. It is freed before `activate` returns on every path.
- Memory that `cas_bio_clone` allocates beyond the clone bio itself, and memory the owner's callbacks allocate, is not in the ledger.
- The `BLKRRPART` rescans (modules/cas_disk/exp_obj.c:269-270, 283, 328) are modelled as replacing the core disk's partition list by `Gendisk.table`, the table on the medium, when the disk may carry more than one partition and `GENHD_FL_NO_PART_SCAN` is clear, and as changing nothing otherwise. The ioctl's own failures (for example busy partitions) are not modelled, and nothing in the model writes the table.
- Partition deletion (`del_partitions`, which calls `_get_next_part_no`) is modelled as removing the lowest partition. The ioctl's internals are not part of this model.
- `_casdsk_flags` is modelled for kernels that define `GENHD_FL_NO_PART_SCAN`. The other branch of the `#ifdef` (modules/cas_disk/exp_obj.c:249-253), where only `GENHD_FL_EXT_DEVT` is hidden, is not modelled.
- bio statuses (`CAS_BIO_SET_STATUS`, `blk_status_t`) are modelled as errno integers.
- The numeric values of `OCF_ERR_*` and `KCAS_ERR_*` live in headers that are not part of this model, so `codeOf` is a parameter. So is the text `strerror` returns. The `abs(INT_MIN)` corner of `cas_strerr` does not arise, because integers are unbounded.
- ExpObj.Disk.Create: a device name is a sequence of characters, each standing for one byte of the C string, and contains no NUL, so its length is what `strlen` counts (modules/cas_disk/exp_obj.c:510). Multi-byte characters and embedded NULs are not modelled.
- ExpObj.Disk.Create: the zeroed pending counters are stated in `ExpObjAlloc`'s contract only. `Create`'s contract says the record is unactivated, unlocked and has no pass-through I/O in flight, but not that its counters are zero.
- ExpObj.Disk.Create: the ledger rollback is not claimed for a `set_geometry` failure when the owner has no `cleanup_queue`. On that path the driver never calls `cleanup_queue` or `blk_cleanup_queue` for the queue (modules/cas_disk/exp_obj.c:584-586). The contract states instead that everything except one queue is given back, and `CreateQueue` states which queue.
- ExpObj.Disk.CreateQueue: the owner's `cleanup_queue` is foreign code; the model assumes it releases the queue it is given, and records that as a `Put` of the queue.
- ExpObj.Disk.BeginRq: the CPU a pass runs on is assumed to be below the number of CPUs online when the module was loaded. The C code indexes the counters by `smp_processor_id()` while sizing them once from `num_online_cpus()` (modules/cas_disk/exp_obj.c:33-38), so sparse or hot-plugged CPU numbers could index past the counters; that case is not modelled.
- ExpObj.Disk.EndRq: the same CPU bound is a precondition. The counters are modelled as exactly one per CPU, so the spare slot that the minimum cache object size gives a single-CPU machine (modules/cas_disk/exp_obj.c:36-38) is not modelled.
- ExpObj.Disk.MakeRequest: inherits the CPU bound of `BeginRq` and `EndRq` as a precondition on every pass.
