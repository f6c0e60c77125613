// File-mode translation of src/vtek_fileio.cpp: read_file_mode_flags turns
// vtek::FileModeFlags into a std::ios openmode, and file_open gives up when
// the translation reports an error (a zero openmode).
module FileIo {
  import opened Wrappers

  /** vtek::FileModeFlag. */
  const READ: bv32 := 0x01
  const WRITE: bv32 := 0x02
  const TRUNC: bv32 := 0x04
  const APPEND: bv32 := 0x08
  const BINARY: bv32 := 0x10

  /**
   * std::ios_base::openmode bits, with the values of the GNU C++ library
   * (the standard only requires distinct single bits).
   */
  const IOS_APP: bv32 := 0x01
  const IOS_ATE: bv32 := 0x02
  const IOS_BINARY: bv32 := 0x04
  const IOS_IN: bv32 := 0x08
  const IOS_OUT: bv32 := 0x10
  const IOS_TRUNC: bv32 := 0x20

  /** The six openmode bits together. */
  const IOS_ALL: bv32 := 0x3f

  predicate Has(x: bv32, bit: bv32)
  {
    x & bit != 0
  }

  /**
   * The combinations read_file_mode_flags refuses: read together with
   * write, or write with both trunc and append.
   */
  predicate ModeFlagsRejected(flags: bv32)
  {
    (Has(flags, READ) && Has(flags, WRITE)) ||
    (!Has(flags, READ) && Has(flags, WRITE) && Has(flags, TRUNC) && Has(flags, APPEND))
  }

  /**
   * read_file_mode_flags: 0 for a refused combination; otherwise in exactly
   * when reading, out exactly when writing without reading, trunc or app
   * only when writing (trunc taking precedence, both ignored when reading),
   * binary exactly when asked for, ate always, and no other bit.
   */
  method ReadFileModeFlags(flags: bv32) returns (openmode: bv32)
    ensures openmode == 0 <==> ModeFlagsRejected(flags)
    ensures openmode != 0 ==> Has(openmode, IOS_ATE)
    ensures openmode != 0 ==> (Has(openmode, IOS_IN) <==> Has(flags, READ))
    ensures openmode != 0 ==> (Has(openmode, IOS_OUT) <==> !Has(flags, READ) && Has(flags, WRITE))
    ensures openmode != 0 ==>
      (Has(openmode, IOS_TRUNC) <==> !Has(flags, READ) && Has(flags, WRITE) && Has(flags, TRUNC))
    ensures openmode != 0 ==>
      (Has(openmode, IOS_APP) <==>
        !Has(flags, READ) && Has(flags, WRITE) && !Has(flags, TRUNC) && Has(flags, APPEND))
    ensures openmode != 0 ==> (Has(openmode, IOS_BINARY) <==> Has(flags, BINARY))
    ensures openmode & !IOS_ALL == 0
  {
    openmode := 0;
    if Has(flags, READ) {
      if Has(flags, WRITE) {
        return 0;
      }
      openmode := openmode | IOS_IN;
    } else if Has(flags, WRITE) {
      if Has(flags, TRUNC) && Has(flags, APPEND) {
        return 0;
      } else if Has(flags, TRUNC) {
        openmode := openmode | IOS_TRUNC;
      } else if Has(flags, APPEND) {
        openmode := openmode | IOS_APP;
      }
      openmode := openmode | IOS_OUT;
    }
    if Has(flags, BINARY) {
      openmode := openmode | IOS_BINARY;
    }
    openmode := openmode | IOS_ATE;
  }

  /**
   * file_open, given whether the path exists and names a regular file: it
   * reaches the filesystem only with flags that translate, and in every case
   * returns no file (opening is not implemented past the checks).
   */
  method FileOpen(flags: bv32, pathExists: bool, isRegularFile: bool)
    returns (file: Option<nat>, checkedPath: bool)
    ensures file.None?
    ensures checkedPath <==> !ModeFlagsRejected(flags)
  {
    file := None;
    checkedPath := false;
    var openmode := ReadFileModeFlags(flags);
    if openmode == 0 {
      return;
    }
    checkedPath := true;
    if !pathExists {
      return;
    }
    if !isRegularFile {
      return;
    }
  }
}
