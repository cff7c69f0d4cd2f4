/** v4l2/ioctl/ioctl.go: the ioctl request codes, built the way the kernel's _IOC
    macro (include/uapi/asm-generic/ioctl.h) builds them, and the four wrappers that
    turn the raw result of the ioctl system call into Go's (bool, error) or error. */
module Ioctl {
  import opened Base
  import opened V4l2

  // ---------------------------------------------------------------------------
  // Request codes
  // ---------------------------------------------------------------------------

  const IOC_NR_BITS: bv64 := 8
  const IOC_TYPE_BITS: bv64 := 8
  const IOC_SIZE_BITS: bv64 := 14

  const IOC_NR_SHIFT: bv64 := 0

  const IOC_READ: bv64 := 2
  const IOC_WRITE: bv64 := 1

  const IOC_TYPE_SHIFT: bv64 := IOC_NR_SHIFT + IOC_NR_BITS
  const IOC_SIZE_SHIFT: bv64 := IOC_TYPE_SHIFT + IOC_TYPE_BITS
  const IOC_DIR_SHIFT: bv64 := IOC_SIZE_SHIFT + IOC_SIZE_BITS

  /** The type byte of every V4L2 request: 'V'. */
  const V4L2_IOC_TYPE: bv64 := 'V' as bv64

  /** (dir << DIR_SHIFT) | (type << TYPE_SHIFT) | (nr << NR_SHIFT) | (size << SIZE_SHIFT) */
  function Ioc(dir: bv64, typ: bv64, nr: bv64, size: bv64): bv64 {
    (dir << IOC_DIR_SHIFT) | (typ << IOC_TYPE_SHIFT) | (nr << IOC_NR_SHIFT) | (size << IOC_SIZE_SHIFT)
  }

  /** The kernel's _IOC_DIR, _IOC_TYPE, _IOC_NR and _IOC_SIZE: the fields read back out of a code. */
  function IocDir(code: bv64): bv64 {
    (code >> IOC_DIR_SHIFT) & 0x3
  }

  function IocType(code: bv64): bv64 {
    (code >> IOC_TYPE_SHIFT) & 0xFF
  }

  function IocNr(code: bv64): bv64 {
    (code >> IOC_NR_SHIFT) & 0xFF
  }

  function IocSize(code: bv64): bv64 {
    (code >> IOC_SIZE_SHIFT) & 0x3FFF
  }

  /** A field that fits its width. */
  predicate FieldsFit(dir: bv64, typ: bv64, nr: bv64, size: bv64) {
    dir < 4 && typ < 0x100 && nr < 0x100 && size < 0x4000
  }

  /** The shifts follow from the 8/8/14-bit widths, and the four fields fill the low 32 bits. */
  lemma ShiftLayout()
    ensures IOC_NR_SHIFT == 0 && IOC_TYPE_SHIFT == 8 && IOC_SIZE_SHIFT == 16 && IOC_DIR_SHIFT == 30
    ensures IOC_DIR_SHIFT + 2 == 32
    ensures IOC_READ | IOC_WRITE == 3
  {
  }

  /** Fields that fit their widths occupy disjoint bits: the OR is a sum, the code fits
      in 32 bits, and decoding gives every field back. */
  lemma IocRoundTrip(dir: bv64, typ: bv64, nr: bv64, size: bv64)
    requires FieldsFit(dir, typ, nr, size)
    ensures Ioc(dir, typ, nr, size) == (dir << 30) + (typ << 8) + nr + (size << 16)
    ensures Ioc(dir, typ, nr, size) < 0x1_0000_0000
    ensures IocDir(Ioc(dir, typ, nr, size)) == dir
    ensures IocType(Ioc(dir, typ, nr, size)) == typ
    ensures IocNr(Ioc(dir, typ, nr, size)) == nr
    ensures IocSize(Ioc(dir, typ, nr, size)) == size
  {
  }

  /** Every 32-bit code is the encoding of its own fields. */
  lemma IocDecodeRoundTrip(code: bv64)
    requires code < 0x1_0000_0000
    ensures FieldsFit(IocDir(code), IocType(code), IocNr(code), IocSize(code))
    ensures Ioc(IocDir(code), IocType(code), IocNr(code), IocSize(code)) == code
  {
  }

  /** VIDIOC_QUERYCAP: read, type 'V', number 0, for a struct v4l2_capability of the
      given size; the Go constant uses unsafe.Sizeof(V4l2Capability{}), which
      SizeofCapability models. */
  function VidiocQuerycap(sizeofCapability: bv64): bv64 {
    Ioc(IOC_READ, V4L2_IOC_TYPE, 0, sizeofCapability)
  }

  /** VIDIOC_ENUM_FMT for a struct v4l2_fmtdesc of the given size. */
  function VidiocEnumFmt(sizeofFmtdesc: bv64): bv64 {
    Ioc(IOC_READ | IOC_WRITE, V4L2_IOC_TYPE, 2, sizeofFmtdesc)
  }

  /** VIDIOC_ENUM_FRAMESIZES for a struct v4l2_frmsizeenum of the given size. */
  function VidiocEnumFramesizes(sizeofFrmsizeenum: bv64): bv64 {
    Ioc(IOC_READ | IOC_WRITE, V4L2_IOC_TYPE, 74, sizeofFrmsizeenum)
  }

  /** VIDIOC_S_FMT for a struct v4l2_format of the given size. */
  function VidiocSFmt(sizeofFormat: bv64): bv64 {
    Ioc(IOC_READ | IOC_WRITE, V4L2_IOC_TYPE, 5, sizeofFormat)
  }

  /** With the 104-byte capability struct, VIDIOC_QUERYCAP is 0x80685600. */
  lemma QueryCapCode()
    ensures SizeofCapability() as bv64 == 104
    ensures VidiocQuerycap(104) == 0x80685600
    ensures IocDir(VidiocQuerycap(104)) == IOC_READ && IocType(VidiocQuerycap(104)) == 0x56
    ensures IocNr(VidiocQuerycap(104)) == 0 && IocSize(VidiocQuerycap(104)) == 104
  {
    SizeofCapabilityField();
    QueryCapValue(VidiocQuerycap(104));
  }

  lemma QueryCapValue(code: bv64)
    requires code == VidiocQuerycap(104)
    ensures code == 0x80685600
    ensures IocDir(code) == 2 && IocType(code) == 0x56 && IocNr(code) == 0 && IocSize(code) == 104
  {
    assert V4L2_IOC_TYPE == 0x56;
    IocRoundTrip(2, 0x56, 0, 104);
  }

  lemma SizeofCapabilityField()
    ensures SizeofCapability() as bv64 == 104
  {
    CapabilityLayout();
    SmallField(SizeofCapability());
  }

  lemma SmallField(n: nat)
    requires n == 104
    ensures n as bv64 == 104
  {
  }

  /** ENUM_FMT, ENUM_FRAMESIZES and S_FMT are read-write requests of type 'V' with
      numbers 2, 74 and 5, carrying the struct size they are given. */
  lemma ReadWriteCodes(size: bv64)
    requires size < 0x4000
    ensures IocDir(VidiocEnumFmt(size)) == 3 && IocType(VidiocEnumFmt(size)) == 0x56
    ensures IocNr(VidiocEnumFmt(size)) == 2 && IocSize(VidiocEnumFmt(size)) == size
    ensures IocDir(VidiocEnumFramesizes(size)) == 3 && IocType(VidiocEnumFramesizes(size)) == 0x56
    ensures IocNr(VidiocEnumFramesizes(size)) == 74 && IocSize(VidiocEnumFramesizes(size)) == size
    ensures IocDir(VidiocSFmt(size)) == 3 && IocType(VidiocSFmt(size)) == 0x56
    ensures IocNr(VidiocSFmt(size)) == 5 && IocSize(VidiocSFmt(size)) == size
  {
    assert V4L2_IOC_TYPE == 0x56;
    IocRoundTrip(3, 0x56, 2, size);
    IocRoundTrip(3, 0x56, 74, size);
    IocRoundTrip(3, 0x56, 5, size);
  }

  // ---------------------------------------------------------------------------
  // The system call result and its classification
  // ---------------------------------------------------------------------------

  /** What syscall.Syscall hands back: r1 and the errno (0 when there is none). */
  datatype SyscallResult = SyscallResult(r1: bv64, errno: bv64)

  const ALL_ONES: bv64 := 0xFFFF_FFFF_FFFF_FFFF

  /** Go's syscall.Syscall on linux/amd64: a raw return value above -4095 (unsigned)
      is a failure, reported as r1 = -1 and errno = -ax; anything else is r1 = ax, errno 0. */
  function Syscall(ax: bv64): (r: SyscallResult)
    ensures r.errno != 0 <==> ax > 0xFFFF_FFFF_FFFF_F001
    ensures r.errno != 0 ==> r.r1 == ALL_ONES && 1 <= r.errno < 4095 && r.errno + ax == 0
    ensures r.errno == 0 ==> r.r1 == ax
  {
    if ax > 0xFFFF_FFFF_FFFF_F001 then SyscallResult(ALL_ONES, 0 - ax) else SyscallResult(ax, 0)
  }

  /** ioctl.QueryCapability: the structure the kernel filled, and the errno as an error when set. */
  function QueryCapability(capability: V4l2Capability, res: SyscallResult): (r: (V4l2Capability, Option<Error>))
    ensures r.0 == capability
    ensures r.1.Some? <==> res.errno != 0
    ensures r.1.Some? ==> r.1.value == Errno(res.errno)
  {
    if res.errno != 0 then (capability, Some(Errno(res.errno))) else (capability, None)
  }

  /** ioctl.QueryFormat: the errno first, then r1 == 0 means "no entry". */
  function QueryFormat(res: SyscallResult): (r: (bool, Option<Error>))
    ensures r.0 <==> res.errno == 0 && res.r1 != 0
    ensures r.1.Some? <==> res.errno != 0
    ensures r.1.Some? ==> r.1.value == Errno(res.errno)
  {
    if res.errno != 0 then (false, Some(Errno(res.errno)))
    else if res.r1 == 0 then (false, None)
    else (true, None)
  }

  /** ioctl.QueryFrameSize: a positive r1 is checked before the errno. */
  function QueryFrameSize(res: SyscallResult): (r: (bool, Option<Error>))
    ensures r.0 <==> res.r1 == 0 && res.errno == 0
    ensures r.1.Some? <==> res.r1 == 0 && res.errno != 0
    ensures r.1.Some? ==> r.1.value == Errno(res.errno)
  {
    if res.r1 > 0 then (false, None)
    else if res.errno != 0 then (false, Some(Errno(res.errno)))
    else (true, None)
  }

  /** ioctl.SetFrameSize: a positive r1 is a "Cannot set frame size" error carrying it;
      otherwise the errno, if any. */
  function SetFrameSize(res: SyscallResult): (r: Option<Error>)
    ensures r.None? <==> res.r1 == 0 && res.errno == 0
    ensures res.r1 > 0 ==> r == Some(FrameSizeStatus(res.r1))
    ensures res.r1 == 0 && res.errno != 0 ==> r == Some(Errno(res.errno))
  {
    if res.r1 > 0 then Some(FrameSizeStatus(res.r1))
    else if res.errno != 0 then Some(Errno(res.errno))
    else None
  }

  // ---------------------------------------------------------------------------
  // What the classification means for the values an ioctl actually returns
  // ---------------------------------------------------------------------------

  /** An ioctl returns 0 on success or -errno on failure. */
  predicate IoctlReturn(ax: bv64) {
    ax == 0 || ax > 0xFFFF_FFFF_FFFF_F001
  }

  /** QueryFormat reports an entry only for a positive, non-error return value, so a
      successful VIDIOC_ENUM_FMT (return value 0) reads as "no entry". */
  lemma QueryFormatFoundOnlyOnPositive(ax: bv64)
    ensures QueryFormat(Syscall(ax)).0 <==> ax != 0 && ax <= 0xFFFF_FFFF_FFFF_F001
    ensures IoctlReturn(ax) ==> !QueryFormat(Syscall(ax)).0
    ensures ax == 0 ==> QueryFormat(Syscall(ax)) == (false, None)
  {
  }

  /** A failed call has r1 = -1 > 0, so QueryFrameSize never passes the errno on: every
      failure reads as (false, nil), and only a zero return reads as found. */
  lemma QueryFrameSizeHidesErrors(ax: bv64)
    ensures QueryFrameSize(Syscall(ax)).1 == None
    ensures QueryFrameSize(Syscall(ax)).0 <==> ax == 0
  {
  }

  /** Likewise SetFrameSize never returns the errno itself: a failure is reported as
      "Cannot set frame size" with status 0xFFFFFFFFFFFFFFFF. */
  lemma SetFrameSizeReportsStatus(ax: bv64)
    ensures SetFrameSize(Syscall(ax)).None? <==> ax == 0
    ensures Syscall(ax).errno != 0 ==> SetFrameSize(Syscall(ax)) == Some(FrameSizeStatus(ALL_ONES))
    ensures SetFrameSize(Syscall(ax)).Some? ==> SetFrameSize(Syscall(ax)).value.FrameSizeStatus?
  {
  }

  /** QueryCapability reports exactly the failures, with the kernel's error number. */
  lemma QueryCapabilityReportsFailures(c: V4l2Capability, ax: bv64)
    ensures QueryCapability(c, Syscall(ax)).1.Some? <==> ax > 0xFFFF_FFFF_FFFF_F001
    ensures QueryCapability(c, Syscall(ax)).1.Some? ==>
      QueryCapability(c, Syscall(ax)).1.value == Errno(0 - ax)
  {
  }
}
