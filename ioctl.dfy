/**
 * The ioctl interface of a mounted file system: the packing of ioctl
 * command numbers (direction, type, number and size bit-fields, laid out as
 * the Linux `_IOC` encoding of include/uapi/asm-generic/ioctl.h), the magic
 * value that marks a request as meant for this file system, and the
 * dispatch of the refresh command by files and directories.
 */
module Ioctl {

  /** The direction field of a command; only its low two bits survive packing. */
  type IocDir = bv8

  const IocDirNone: IocDir := 0
  const IocDirWrite: IocDir := 1
  const IocDirRead: IocDir := 2

  const IocDirBits: bv32 := 2
  const IocSizeBits: bv32 := 14
  const IocTypeBits: bv32 := 8
  const IocNrBits: bv32 := 8

  const IocNrMask: bv32 := (1 << IocNrBits) - 1
  const IocTypeMask: bv32 := (1 << IocTypeBits) - 1
  const IocSizeMask: bv32 := (1 << IocSizeBits) - 1
  const IocDirMask: bv32 := (1 << IocDirBits) - 1

  const IocNrShift: bv32 := 0
  const IocTypeShift: bv32 := IocNrShift + IocNrBits
  const IocSizeShift: bv32 := IocTypeShift + IocTypeBits
  const IocDirShift: bv32 := IocSizeShift + IocSizeBits

  /** The fields of a command number. */
  datatype Ioc = Ioc(dir: IocDir, typ: bv8, nr: bv8, size: bv16)

  /**
   * `makeIoc`: the four fields shifted into place and OR-ed together in 32
   * bits. The number and the type always land intact in bits 0-7 and 8-15;
   * a size below 2^14 lands intact in bits 16-29, a direction below 4 in
   * bits 30-31.
   */
  function MakeIoc(dir: IocDir, typ: bv8, nr: bv8, size: bv16): (r: bv32)
    ensures r & 0xFF == nr as bv32
    ensures (r >> 8) & 0xFF == typ as bv32
    ensures size < 0x4000 ==> (r >> 16) & 0x3FFF == size as bv32
    ensures size < 0x4000 && dir < 4 ==> r >> 30 == dir as bv32
  {
    ((dir as bv32) << IocDirShift) |
    ((typ as bv32) << IocTypeShift) |
    ((nr as bv32) << IocNrShift) |
    ((size as bv32) << IocSizeShift)
  }

  /** `makeIocN`: a command that transfers no data. */
  function MakeIocN(typ: bv8, nr: bv8): (r: bv32)
    ensures DecodeIoc(r) == Ioc(IocDirNone, typ, nr, 0)
  {
    MakeIoc(IocDirNone, typ, nr, 0)
  }

  /** `makeIocW`: a command that writes `size` bytes. */
  function MakeIocW(typ: bv8, nr: bv8, size: bv16): (r: bv32)
    ensures DecodeIoc(r).dir == IocDirWrite || size >= 0x4000
    ensures size < 0x4000 ==> DecodeIoc(r) == Ioc(IocDirWrite, typ, nr, size)
  {
    MakeIoc(IocDirWrite, typ, nr, size)
  }

  /** `makeIocR`: a command that reads `size` bytes. */
  function MakeIocR(typ: bv8, nr: bv8, size: bv16): (r: bv32)
    ensures DecodeIoc(r).dir == IocDirRead || size >= 0x4000
    ensures size < 0x4000 ==> DecodeIoc(r) == Ioc(IocDirRead, typ, nr, size)
  {
    MakeIoc(IocDirRead, typ, nr, size)
  }

  /**
   * `decodeIoc`: the four fields read back out of their bit ranges. Every
   * 32-bit value is the packing of the fields it decodes to.
   */
  function DecodeIoc(ioc: bv32): (r: Ioc)
    ensures r.dir < 4 && r.size < 0x4000
    ensures MakeIoc(r.dir, r.typ, r.nr, r.size) == ioc
  {
    Ioc(((ioc >> IocDirShift) & IocDirMask) as bv8,
        ((ioc >> IocTypeShift) & IocTypeMask) as bv8,
        ((ioc >> IocNrShift) & IocNrMask) as bv8,
        ((ioc >> IocSizeShift) & IocSizeMask) as bv16)
  }

  /** Decoding a packed command gives its fields back, for a direction below 4 and a size below 2^14. */
  lemma DecodeMakeIoc(dir: IocDir, typ: bv8, nr: bv8, size: bv16)
    requires dir < 4 && size < 0x4000
    ensures DecodeIoc(MakeIoc(dir, typ, nr, size)) == Ioc(dir, typ, nr, size)
  {
  }

  /** Within those bounds the four shifted fields do not overlap, so the OR is their sum. */
  lemma MakeIocFieldsDisjoint(dir: IocDir, typ: bv8, nr: bv8, size: bv16)
    requires dir < 4 && size < 0x4000
    ensures ((dir as bv32) << 30) & ((size as bv32) << 16) == 0
    ensures ((size as bv32) << 16) & ((typ as bv32) << 8) == 0
    ensures ((typ as bv32) << 8) & (nr as bv32) == 0
    ensures MakeIoc(dir, typ, nr, size) ==
            ((dir as bv32) << 30) + ((size as bv32) << 16) + ((typ as bv32) << 8) + (nr as bv32)
  {
  }

  /** Distinct commands within the bounds pack to distinct numbers. */
  lemma MakeIocInjective(a: Ioc, b: Ioc)
    requires a.dir < 4 && a.size < 0x4000 && b.dir < 4 && b.size < 0x4000
    requires MakeIoc(a.dir, a.typ, a.nr, a.size) == MakeIoc(b.dir, b.typ, b.nr, b.size)
    ensures a == b
  {
    DecodeMakeIoc(a.dir, a.typ, a.nr, a.size);
    DecodeMakeIoc(b.dir, b.typ, b.nr, b.size);
  }

  /**
   * A size of 2^14 or more is not masked before packing: its bits 14-15
   * are OR-ed into the direction, and decoding keeps only its low 14 bits.
   */
  lemma LargeSizeSpillsIntoDir(dir: IocDir, typ: bv8, nr: bv8, size: bv16)
    requires dir < 4
    ensures DecodeIoc(MakeIoc(dir, typ, nr, size)) ==
            Ioc(dir | (size >> 14) as bv8, typ, nr, size & 0x3FFF)
  {
  }

  /** `IocRefresh`: the refresh command, type 'r' number 0x20, no data. */
  const IocRefresh: bv32 := MakeIocN(0x72, 0x20)

  lemma IocRefreshValue()
    ensures IocRefresh == 0x7220
    ensures DecodeIoc(IocRefresh) == Ioc(IocDirNone, 0x72, 0x20, 0)
  {
  }

  /** The magic 'c','l' in bits 16-31 of an argument, and the mask that selects those bits. */
  const IocArgMagic: bv64 := (0x63 << 24) | (0x6C << 16)
  const IocArgMagicMask: bv64 := 0xFFFF << 16

  /** `IocCheckMagic`: the argument carries the magic in bits 16-31. */
  function IocCheckMagic(arg: bv64): (r: bool)
    ensures r <==> (arg >> 16) & 0xFFFF == 0x636C
  {
    arg & IocArgMagicMask == IocArgMagic
  }

  /** The magic check looks at bits 16-31 only: arguments that agree there agree on the check. */
  lemma CheckMagicOnlyBits16To31(a: bv64, b: bv64)
    requires (a >> 16) & 0xFFFF == (b >> 16) & 0xFFFF
    ensures IocCheckMagic(a) == IocCheckMagic(b)
  {
  }

  /** Setting or clearing the recursive flag (bit 0) never changes the magic check. */
  lemma RecursiveFlagKeepsMagic(arg: bv64)
    ensures IocCheckMagic(arg | 1) == IocCheckMagic(arg)
    ensures IocCheckMagic(arg & !1) == IocCheckMagic(arg)
  {
    CheckMagicOnlyBits16To31(arg | 1, arg);
    CheckMagicOnlyBits16To31(arg & !1, arg);
  }

  /** The directory listing a refresh rereads: one level, or the whole tree below. */
  datatype Refresh = ReadDir | ReadDirTree

  /** What an ioctl answers: ENOTTY, or success with the refresh it ran and the result it reports. */
  datatype IoctlResult = NotTTY | Refreshed(refresh: Refresh, result: int)

  /**
   * `File.Ioctl`: only the refresh command with the magic argument is
   * served; it rereads the file's directory, one level, and reports 1 when
   * that fails and 0 otherwise.
   */
  function FileIoctl(cmd: bv32, arg: bv64, readDirFails: bool): (r: IoctlResult)
    ensures r.NotTTY? <==> cmd != IocRefresh || !IocCheckMagic(arg)
    ensures r.Refreshed? ==> r.refresh == ReadDir && r.result == (if readDirFails then 1 else 0)
  {
    if cmd != IocRefresh then NotTTY
    else if !IocCheckMagic(arg) then NotTTY
    else Refreshed(ReadDir, if readDirFails then 1 else 0)
  }

  /**
   * `Dir.Ioctl`: only the refresh command with the magic argument is
   * served; bit 0 of the argument asks for the whole tree, and the result
   * is 1 when the chosen refresh fails and 0 otherwise.
   */
  function DirIoctl(cmd: bv32, arg: bv64, fails: Refresh -> bool): (r: IoctlResult)
    ensures r.NotTTY? <==> cmd != IocRefresh || !IocCheckMagic(arg)
    ensures r.Refreshed? ==> (r.refresh == ReadDirTree <==> arg & 1 != 0)
    ensures r.Refreshed? ==> r.result == (if fails(r.refresh) then 1 else 0)
  {
    if cmd != IocRefresh then NotTTY
    else if !IocCheckMagic(arg) then NotTTY
    else if arg & 1 != 0 then Refreshed(ReadDirTree, if fails(ReadDirTree) then 1 else 0)
    else Refreshed(ReadDir, if fails(ReadDir) then 1 else 0)
  }

  /** A file ignores the recursive flag: with or without it, the answer is the same. */
  lemma FileIgnoresRecursiveFlag(cmd: bv32, arg: bv64, readDirFails: bool)
    ensures FileIoctl(cmd, arg | 1, readDirFails) == FileIoctl(cmd, arg & !1, readDirFails)
  {
    RecursiveFlagKeepsMagic(arg);
  }

  /**
   * For a directory the recursive flag decides only which refresh runs:
   * with it the tree is reread, without it one level, and both are served
   * or refused alike.
   */
  lemma DirRecursiveFlagSelectsTree(cmd: bv32, arg: bv64, fails: Refresh -> bool)
    ensures DirIoctl(cmd, arg | 1, fails).NotTTY? == DirIoctl(cmd, arg & !1, fails).NotTTY?
    ensures DirIoctl(cmd, arg | 1, fails).Refreshed? ==> DirIoctl(cmd, arg | 1, fails).refresh == ReadDirTree
    ensures DirIoctl(cmd, arg & !1, fails).Refreshed? ==> DirIoctl(cmd, arg & !1, fails).refresh == ReadDir
  {
    RecursiveFlagKeepsMagic(arg);
    assert (arg | 1) & 1 != 0;
    assert (arg & !1) & 1 == 0;
  }

  /** A refresh request as the refresh command sends it (magic plus recursive flag) is served by a directory. */
  lemma MagicRefreshIsServed(flag: bool, fails: Refresh -> bool)
    ensures DirIoctl(IocRefresh, IocArgMagic | (if flag then 1 else 0), fails) ==
            Refreshed(if flag then ReadDirTree else ReadDir, if fails(if flag then ReadDirTree else ReadDir) then 1 else 0)
  {
  }
}
