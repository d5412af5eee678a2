/** Shared vocabulary: an optional value and the Linux errno values the driver returns. */
module Common {

  datatype Option<T> = None | Some(value: T)

  // Linux errno values (include/uapi/asm-generic/errno-base.h and errno.h).
  const EIO: int := 5
  const ENOMEM: int := 12
  const EBUSY: int := 16
  const EEXIST: int := 17
  const ENODEV: int := 19
  const EINVAL: int := 22
  const ENAVAIL: int := 119

  /** C's abs() on an int, without the INT_MIN corner (integers are unbounded here). */
  function Abs(x: int): (r: nat)
    ensures r == x || r == -x
  {
    if x < 0 then -x else x
  }
}
