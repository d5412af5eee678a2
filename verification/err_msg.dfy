/**
 * The extended error-message lookup of the administration tool: a static table from
 * CAS error codes (open-cas-linux engine codes OCF_ERR_* and kernel-module codes KCAS_ERR_*)
 * to messages, searched linearly, with the C library's strerror as the fallback.
 *
 * The numeric values of the codes live in headers that are not part of this model, so a code
 * is a name (CasError) and its number is given by a parameter `codeOf`; the text of strerror is
 * likewise a parameter. A result of None stands for the NULL pointer the C function returns.
 */
module ExtendedErrMsg {
  import opened Common

  /** The names of the error codes that have an extended message, in table order. */
  datatype CasError =
    | OcfErrInval
    | OcfErrInvalVolumeType
    | OcfErrIntr
    | OcfErrUnknown
    | OcfErrTooManyCaches
    | OcfErrNoMem
    | OcfErrNoFreeRam
    | OcfErrStartCacheFail
    | OcfErrCacheInUse
    | OcfErrCacheNotExist
    | OcfErrCacheExist
    | OcfErrTooManyCores
    | OcfErrCoreNotAvail
    | OcfErrCacheNotAvail
    | OcfErrIoClassNotExist
    | OcfErrWriteCache
    | OcfErrWriteCore
    | OcfErrDirtyShutdown
    | OcfErrDirtyExists
    | OcfErrFlushingInterrupted
    | OcfErrCannotAddCoreToPool
    | OcfErrCacheInIncompleteState
    | OcfErrCoreInInactiveState
    | OcfErrNotOpenExc
    | KcasErrRoot
    | KcasErrSystem
    | KcasErrBadRange
    | KcasErrDevSpace
    | KcasErrInvIoctl
    | KcasErrDevPending
    | KcasErrDirtyExistsNvme
    | KcasErrFileExists
    | KcasErrInUpgrade
    | KcasErrUnaligned
    | KcasErrNoStoredConf
    | KcasErrRollback
    | KcasErrNotNvme
    | KcasErrFormatFailed
    | KcasErrNvmeBadFormat
    | KcasErrUnsupportedLbaFormat
    | KcasErrContainsPart
    | KcasErrAPart
    | KcasErrRemovedDirty
    | KcasErrStoppedDirty
    | KcasErrNoCacheAttached
    | KcasErrCorePoolNotEmpty
    | KcasErrClsRuleUnknownCondition
    | KcasErrClsRuleInvalidSyntax

  /** One row of the static table: a code name and its message. */
  datatype Entry = Entry(casError: CasError, msg: string)

  /** The static table, row for row: the engine (OCF) rows, then the kernel-module (KCAS) rows. */
  const ErrorCodeMap: seq<Entry> := OcfRows + KcasRows

  /** Engine error mappings: rows 0 to 23 of the table. */
  const OcfRows: seq<Entry> := [
    Entry(OcfErrInval, "Invalid input parameter"),
    Entry(OcfErrInvalVolumeType, "Invalid volume type"),
    Entry(OcfErrIntr, "Interrupted by a signal"),
    Entry(OcfErrUnknown, "Unknown error occurred"),
    Entry(OcfErrTooManyCaches, "Too many caches"),
    Entry(OcfErrNoMem, "Not enough memory to allocate a new cache device"),
    Entry(OcfErrNoFreeRam, "Not enough free RAM for cache metadata to start cache"),
    Entry(OcfErrStartCacheFail, "Failed to insert cache"),
    Entry(OcfErrCacheInUse, "At least one cas device is still in use"),
    Entry(OcfErrCacheNotExist, "Cache ID does not exist"),
    Entry(OcfErrCacheExist, "Cache ID already exists"),
    Entry(OcfErrTooManyCores, "Too many core devices in cache"),
    Entry(OcfErrCoreNotAvail, "Core device not available"),
    Entry(OcfErrCacheNotAvail, "Cache device not available"),
    Entry(OcfErrIoClassNotExist, "No such IO class ID in the cache"),
    Entry(OcfErrWriteCache, "Error while writing to cache device"),
    Entry(OcfErrWriteCore, "Error while writing to core device"),
    Entry(OcfErrDirtyShutdown, "Please use --load option to restore previous cache state (Warning: data corruption may happen)\nOr initialize your cache using --force option. Warning: All dirty data will be lost!\n"),
    Entry(OcfErrDirtyExists, "Cache closed with dirty data.\nPlease start cache using --load or --force option.\n"),
    Entry(OcfErrFlushingInterrupted, "Flushing of core interrupted"),
    Entry(OcfErrCannotAddCoreToPool, "Error occurred during adding core device to core pool"),
    Entry(OcfErrCacheInIncompleteState, "Cache is in incomplete state - at least one core is inactive"),
    Entry(OcfErrCoreInInactiveState, "Core device is in inactive state"),
    Entry(OcfErrNotOpenExc, "Cannot open device exclusively")
  ]

  /** Kernel-module error mappings: rows 24 to 47 of the table. */
  const KcasRows: seq<Entry> := [
    Entry(KcasErrRoot, "Must be root"),
    Entry(KcasErrSystem, "System Error"),
    Entry(KcasErrBadRange, "Range parameters are invalid"),
    Entry(KcasErrDevSpace, "Illegal range, out of device space"),
    Entry(KcasErrInvIoctl, "Invalid ioctl"),
    Entry(KcasErrDevPending, "Device opens or mount are pending to this cache"),
    Entry(KcasErrDirtyExistsNvme, "Cache device contains dirty data.\nIf you want to format it, please use --force option.\nWarning: all data will be lost!"),
    Entry(KcasErrFileExists, "Could not create exported object because file in /dev directory exists"),
    Entry(KcasErrInUpgrade, "Operation not allowed. CAS is in upgrade state"),
    Entry(KcasErrUnaligned, "Cache device logical sector size is greater than core device logical sector size.\nConsider changing logical sector size on current cache device \nor try other device with the same logical sector size as core device."),
    Entry(KcasErrNoStoredConf, "Internal kernel module error"),
    Entry(KcasErrRollback, "Cannot restore previous configuration"),
    Entry(KcasErrNotNvme, "Given block device is not NVMe"),
    Entry(KcasErrFormatFailed, "Failed to format NVMe device"),
    Entry(KcasErrNvmeBadFormat, "NVMe is formatted to unsupported format"),
    Entry(KcasErrUnsupportedLbaFormat, "Specified LBA format is not supported by the NVMe device"),
    Entry(KcasErrContainsPart, "Device contains partitions.\nIf you want to continue, please use --force option.\nWarning: all data will be lost!"),
    Entry(KcasErrAPart, "Formatting of partition is unsupported."),
    Entry(KcasErrRemovedDirty, "Flush error occured. Core has been set to detached state.\nWarning: Core device may contain inconsistent data.\nTo access your data please add core back to the cache."),
    Entry(KcasErrStoppedDirty, "Cache has been stopped with flushing error.\nWarning: Core devices may contain inconsistent data.\nTo access your data, please start cache with --load option."),
    Entry(KcasErrNoCacheAttached, "Operation not allowed. Caching device is not attached."),
    Entry(KcasErrCorePoolNotEmpty, "Operation not allowed. Core pool is not empty."),
    Entry(KcasErrClsRuleUnknownCondition, "Unexpected classification rule condition"),
    Entry(KcasErrClsRuleInvalidSyntax, "Invalid classification rule syntax")
  ]

  /**
   * Index of the first row of `t` whose numeric code is `code`, or None: the search the
   * table loop performs.
   */
  function FirstMatch(t: seq<Entry>, codeOf: CasError -> int, code: int): (r: Option<nat>)
    ensures r.Some? ==> r.value < |t| && codeOf(t[r.value].casError) == code
    ensures r.Some? ==> forall j :: 0 <= j < r.value ==> codeOf(t[j].casError) != code
    ensures r.None? <==> forall j :: 0 <= j < |t| ==> codeOf(t[j].casError) != code
  {
    if t == [] then None
    else if codeOf(t[0].casError) == code then Some(0)
    else
      match FirstMatch(t[1..], codeOf, code)
      case None => None
      case Some(k) => Some(k + 1)
  }

  /**
   * What cas_strerr returns: nothing for 0; otherwise, for the absolute value of the code, the
   * message of the first table row with that code, or else strerror's text.
   */
  function StrErr(codeOf: CasError -> int, strerror: nat -> string, casErrorCode: int): (r: Option<string>)
    ensures r.None? <==> casErrorCode == 0
  {
    if casErrorCode == 0 then None
    else
      match FirstMatch(ErrorCodeMap, codeOf, Abs(casErrorCode))
      case Some(i) => Some(ErrorCodeMap[i].msg)
      case None => Some(strerror(Abs(casErrorCode)))
  }

  /**
   * The loop of cas_strerr over a table t: walks the rows front to back and stops at the
   * first whose numeric code is `code`.
   */
  method Search(t: seq<Entry>, codeOf: CasError -> int, code: int) returns (found: Option<nat>)
    ensures found == FirstMatch(t, codeOf, code)
  {
    for i := 0 to |t|
      invariant forall j :: 0 <= j < i ==> codeOf(t[j].casError) != code
    {
      if codeOf(t[i].casError) == code {
        FirstMatchIsUnique(t, codeOf, code, i);
        return Some(i);
      }
    }
    return None;
  }

  /**
   * cas_strerr: the sign of the code is dropped, the table is searched front to back and the
   * first matching row's message is returned; a code with no row falls back to strerror.
   */
  method CasStrErr(codeOf: CasError -> int, strerror: nat -> string, casErrorCode: int)
    returns (msg: Option<string>)
    ensures msg == StrErr(codeOf, strerror, casErrorCode)
  {
    if casErrorCode == 0 {
      return None;
    }
    var code := Abs(casErrorCode);
    var found := Search(ErrorCodeMap, codeOf, code);
    if found.Some? {
      return Some(ErrorCodeMap[found.value].msg);
    }
    return Some(strerror(code));
  }

  /** A row that matches with no earlier match is the one FirstMatch finds. */
  lemma FirstMatchIsUnique(t: seq<Entry>, codeOf: CasError -> int, code: int, i: nat)
    requires i < |t| && codeOf(t[i].casError) == code
    requires forall j :: 0 <= j < i ==> codeOf(t[j].casError) != code
    ensures FirstMatch(t, codeOf, code) == Some(i)
  {
    var r := FirstMatch(t, codeOf, code);
    assert r.Some?;
    assert !(r.value < i) && !(i < r.value);
  }

  /** For a nonzero code the sign does not matter. */
  lemma StrErrIgnoresSign(codeOf: CasError -> int, strerror: nat -> string, x: int)
    requires x != 0
    ensures StrErr(codeOf, strerror, -x) == StrErr(codeOf, strerror, x) != None
  {
  }

  /** The search never looks past the first match: rows appended after it change nothing. */
  lemma {:induction false} FirstMatchIgnoresLaterRows(t: seq<Entry>, u: seq<Entry>, codeOf: CasError -> int, code: int)
    requires FirstMatch(t, codeOf, code).Some?
    ensures FirstMatch(t + u, codeOf, code) == FirstMatch(t, codeOf, code)
  {
    assert (t + u)[0] == t[0];
    if codeOf(t[0].casError) != code {
      assert (t + u)[1..] == t[1..] + u;
      FirstMatchIgnoresLaterRows(t[1..], u, codeOf, code);
    }
  }

  /** A nonzero code whose first matching row is i yields that row's message. */
  lemma StrErrFirstMatchingRow(codeOf: CasError -> int, strerror: nat -> string, casErrorCode: int, i: nat)
    requires casErrorCode != 0 && i < |ErrorCodeMap|
    requires codeOf(ErrorCodeMap[i].casError) == Abs(casErrorCode)
    requires forall j :: 0 <= j < i ==> codeOf(ErrorCodeMap[j].casError) != Abs(casErrorCode)
    ensures StrErr(codeOf, strerror, casErrorCode) == Some(ErrorCodeMap[i].msg)
  {
    FirstMatchIsUnique(ErrorCodeMap, codeOf, Abs(casErrorCode), i);
  }

  /** A nonzero code that no row carries falls back to strerror of its absolute value. */
  lemma StrErrFallback(codeOf: CasError -> int, strerror: nat -> string, casErrorCode: int)
    requires casErrorCode != 0
    requires forall j :: 0 <= j < |ErrorCodeMap| ==> codeOf(ErrorCodeMap[j].casError) != Abs(casErrorCode)
    ensures StrErr(codeOf, strerror, casErrorCode) == Some(strerror(Abs(casErrorCode)))
  {
  }
}
