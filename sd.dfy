/**
 * The SD-card wrapper (SD.h, SD.cpp): an initialized/mounted lifecycle over
 * a FatFS disk, a 32-byte mount-point buffer, and file operations that build
 * "<mountPoint>/<path>" into a 64-byte buffer before calling FatFS.
 *
 * FatFS itself is outside the model: whether disk init, disk mount, fopen,
 * fprintf and mkdir succeed are parameters, and so are the bytes a read
 * would deliver. A file operation reports the fopen/mkdir call it makes, so
 * the path it builds is observable.
 */
module SdCard {
  import opened Wrappers

  /** sizeof(mountPoint) and sizeof(fullPath). */
  const MOUNT_POINT_SIZE: nat := 32
  const FULL_PATH_SIZE: nat := 64

  /** A C string's characters, without its terminating NUL. */
  type CString = s: seq<char> | '\0' !in s

  /** The first n characters of s, or all of s when it is shorter. */
  function Take(s: CString, n: nat): (r: CString)
    ensures r <= s && |r| == if |s| <= n then |s| else n
  {
    if |s| <= n then s else s[..n]
  }

  /** The string a NUL-terminated buffer holds: everything before its first NUL. */
  function CStr(buf: seq<char>): (r: CString)
    ensures r <= buf
    ensures |r| < |buf| ==> buf[|r|] == '\0'
  {
    if |buf| == 0 || buf[0] == '\0' then [] else [buf[0]] + CStr(buf[1..])
  }

  /** A string followed by a NUL reads back as that string, whatever comes after. */
  lemma {:induction false} CStrOfTerminated(p: CString, rest: seq<char>)
    requires |rest| > 0 && rest[0] == '\0'
    ensures CStr(p + rest) == p
  {
    if |p| > 0 {
      assert (p + rest)[1..] == p[1..] + rest;
      CStrOfTerminated(p[1..], rest);
    } else {
      assert p + rest == rest;
    }
  }

  /** What strncpy(dst, src, n) writes: src's first n characters, then NULs up to n. */
  function Padded(src: CString, n: nat): (r: seq<char>)
  {
    seq(n, i requires 0 <= i < n => if i < |src| then src[i] else '\0')
  }

  /** The characters snprintf("%s/%s") leaves in fullPath: the joined path, cut to 63 characters. */
  function FullPath(mountPoint: CString, path: CString): (r: CString)
    ensures |r| < FULL_PATH_SIZE
    ensures r <= mountPoint + ['/'] + path
    ensures |mountPoint| + 1 + |path| < FULL_PATH_SIZE ==> r == mountPoint + ['/'] + path
    ensures |mountPoint| + 1 + |path| >= FULL_PATH_SIZE ==> |r| == FULL_PATH_SIZE - 1
  {
    Take(mountPoint + ['/'] + path, FULL_PATH_SIZE - 1)
  }

  /** A short mount point and file name are joined whole: "/sd0" and "log.csv" give "/sd0/log.csv". */
  lemma FullPathExample()
    ensures FullPath("/sd0", "log.csv") == "/sd0/log.csv"
  {
  }

  /** strncpy: n characters written, src then NUL padding; nothing past n changes. */
  method StrNCopy(dst: array<char>, src: CString, n: nat)
    requires n <= dst.Length
    modifies dst
    ensures dst[..n] == Padded(src, n)
    ensures dst[n..] == old(dst[n..])
  {
    for i := 0 to n
      invariant dst[..i] == Padded(src, n)[..i]
      invariant dst[i..] == old(dst[i..])
    {
      dst[i] := if i < |src| then src[i] else '\0';
    }
  }

  /** The fread loop: contents[..n] lands in buf[..n]; nothing past n changes. */
  method CopyPrefix(buf: array<char>, contents: seq<char>, n: nat)
    requires n <= |contents| && n <= buf.Length
    modifies buf
    ensures buf[..n] == contents[..n]
    ensures buf[n..] == old(buf[n..])
  {
    for i := 0 to n
      invariant buf[..i] == contents[..i]
      invariant buf[i..] == old(buf[i..])
    {
      buf[i] := contents[i];
    }
  }

  /** The fopen call a file operation makes: the path and the mode. */
  datatype FileOpen = FileOpen(path: CString, mode: char)

  function Min(a: nat, b: nat): nat
  {
    if a <= b then a else b
  }

  class SD {
    /** pxDisk != nullptr */
    var hasDisk: bool
    var isInitialized: bool
    var isMounted: bool
    const mountPoint: array<char>

    ghost predicate Valid()
      reads this, mountPoint
    {
      mountPoint.Length == MOUNT_POINT_SIZE && '\0' in mountPoint[..] &&
      (isInitialized <==> hasDisk) && (isMounted ==> isInitialized) &&
      (!isMounted ==> mountPoint[0] == '\0')
    }

    /** The mount path as a C string. */
    function MountPoint(): CString
      reads this, mountPoint
    {
      CStr(mountPoint[..])
    }

    /** isReady: the card can be used once it is both initialized and mounted. */
    predicate IsReady()
      reads this, mountPoint
      ensures IsReady() <==> isInitialized && isMounted
      ensures Valid() ==> (IsReady() <==> isMounted)
      ensures Valid() && !IsReady() ==> MountPoint() == []
    {
      isInitialized && isMounted
    }

    /** No disk, not initialized, not mounted, empty mount point. */
    constructor ()
      ensures Valid() && fresh(mountPoint)
      ensures !hasDisk && !isInitialized && !isMounted && MountPoint() == []
    {
      hasDisk, isInitialized, isMounted := false, false, false;
      mountPoint := new char[MOUNT_POINT_SIZE];
      new;
      mountPoint[0] := '\0';
    }

    /**
     * initialize: a no-op success when already initialized; otherwise the
     * object is initialized, with a disk, exactly when the disk init succeeds.
     */
    method Initialize(diskInitSucceeds: bool) returns (ok: bool)
      requires Valid()
      modifies this`hasDisk, this`isInitialized
      ensures Valid()
      ensures old(isInitialized) ==> ok && isInitialized && hasDisk
      ensures !old(isInitialized) ==> ok == diskInitSucceeds && isInitialized == diskInitSucceeds && hasDisk == diskInitSucceeds
    {
      if isInitialized {
        return true;
      }
      hasDisk := diskInitSucceeds;
      if !hasDisk {
        return false;
      }
      isInitialized := true;
      return true;
    }

    /**
     * mount: refused before initialize; a no-op success when already mounted;
     * otherwise mounted exactly when the disk mount succeeds, and then the
     * mount point holds the first 31 characters of the path, NUL-terminated.
     */
    method Mount(mountPath: CString, mountSucceeds: bool) returns (ok: bool)
      requires Valid()
      modifies this`isMounted, mountPoint
      ensures Valid()
      ensures !old(isInitialized) ==> !ok && !isMounted && unchanged(mountPoint)
      ensures old(isInitialized) && old(isMounted) ==> ok && isMounted && unchanged(mountPoint)
      ensures old(isInitialized) && !old(isMounted) ==> ok == mountSucceeds && isMounted == mountSucceeds
      ensures old(isInitialized) && !old(isMounted) && !ok ==> unchanged(mountPoint)
      ensures old(isInitialized) && !old(isMounted) && ok ==>
                MountPoint() == Take(mountPath, MOUNT_POINT_SIZE - 1) && mountPoint[MOUNT_POINT_SIZE - 1] == '\0'
    {
      if !isInitialized {
        return false;
      }
      if isMounted {
        return true;
      }
      if !mountSucceeds {
        return false;
      }
      StrNCopy(mountPoint, mountPath, MOUNT_POINT_SIZE - 1);
      mountPoint[MOUNT_POINT_SIZE - 1] := '\0';
      isMounted := true;
      var kept := Take(mountPath, MOUNT_POINT_SIZE - 1);
      var rest := Padded(mountPath, MOUNT_POINT_SIZE - 1)[|kept|..] + ['\0'];
      assert mountPoint[..] == kept + rest;
      CStrOfTerminated(kept, rest);
      return true;
    }

    /** unmount: always succeeds; afterwards not mounted, empty mount point, initialization untouched. */
    method Unmount() returns (ok: bool)
      requires Valid()
      modifies this`isMounted, mountPoint
      ensures Valid()
      ensures ok && !isMounted && MountPoint() == []
      ensures !old(isMounted) ==> unchanged(mountPoint)
    {
      if !isMounted {
        return true;
      }
      isMounted := false;
      mountPoint[0] := '\0';
      return true;
    }

    /** cleanup: unmounted, uninitialized, no disk. */
    method Cleanup()
      requires Valid()
      modifies this, mountPoint
      ensures Valid()
      ensures !isMounted && !isInitialized && !hasDisk
    {
      if isMounted {
        var _ := Unmount();
      }
      if isInitialized && hasDisk {
        hasDisk := false;
        isInitialized := false;
      }
    }

    /**
     * The body writeToFile and appendToFile share: refused when not ready;
     * otherwise opens the joined path in the given mode, and succeeds when the
     * open succeeds and the print reports no error.
     */
    method PrintToFile(filePath: CString, data: CString, mode: char, fopenSucceeds: bool, printed: int)
      returns (ok: bool, call: Option<FileOpen>)
      requires Valid()
      ensures !IsReady() ==> !ok && call == None
      ensures IsReady() ==> call == Some(FileOpen(FullPath(MountPoint(), filePath), mode))
      ensures IsReady() ==> (ok <==> fopenSucceeds && printed >= 0)
    {
      if !IsReady() {
        return false, None;
      }
      call := Some(FileOpen(FullPath(MountPoint(), filePath), mode));
      if !fopenSucceeds {
        return false, call;
      }
      ok := printed >= 0;
    }

    /** writeToFile: PrintToFile with mode "w". */
    method WriteToFile(filePath: CString, data: CString, fopenSucceeds: bool, printed: int) returns (ok: bool, call: Option<FileOpen>)
      requires Valid()
      ensures !IsReady() ==> !ok && call == None
      ensures IsReady() ==> call == Some(FileOpen(FullPath(MountPoint(), filePath), 'w'))
      ensures IsReady() ==> (ok <==> fopenSucceeds && printed >= 0)
    {
      ok, call := PrintToFile(filePath, data, 'w', fopenSucceeds, printed);
    }

    /** appendToFile: PrintToFile with mode "a". */
    method AppendToFile(filePath: CString, data: CString, fopenSucceeds: bool, printed: int) returns (ok: bool, call: Option<FileOpen>)
      requires Valid()
      ensures !IsReady() ==> !ok && call == None
      ensures IsReady() ==> call == Some(FileOpen(FullPath(MountPoint(), filePath), 'a'))
      ensures IsReady() ==> (ok <==> fopenSucceeds && printed >= 0)
    {
      ok, call := PrintToFile(filePath, data, 'a', fopenSucceeds, printed);
    }

    /**
     * readFromFile: refused when not ready, for a null buffer or a zero size;
     * otherwise, once the file opens, at most bufferSize - 1 bytes of it are
     * copied and a NUL is written right after them.
     */
    method ReadFromFile(filePath: CString, buffer: array?<char>, bufferSize: nat, fopenSucceeds: bool, contents: seq<char>)
      returns (ok: bool, call: Option<FileOpen>)
      requires Valid()
      requires buffer != null ==> bufferSize <= buffer.Length && buffer != mountPoint
      modifies if buffer != null then {buffer} else {}
      ensures call == if IsReady() && buffer != null && bufferSize > 0
                      then Some(FileOpen(FullPath(MountPoint(), filePath), 'r')) else None
      ensures ok <==> IsReady() && buffer != null && bufferSize > 0 && fopenSucceeds
      ensures ok ==> var n := Min(bufferSize - 1, |contents|);
                     buffer[..n] == contents[..n] && buffer[n] == '\0' && buffer[n + 1..] == old(buffer[n + 1..])
      ensures !ok && buffer != null ==> unchanged(buffer)
    {
      if !IsReady() || buffer == null || bufferSize == 0 {
        return false, None;
      }
      call := Some(FileOpen(FullPath(MountPoint(), filePath), 'r'));
      if !fopenSucceeds {
        return false, call;
      }
      var bytesRead := Min(bufferSize - 1, |contents|);
      CopyPrefix(buffer, contents, bytesRead);
      buffer[bytesRead] := '\0';
      return true, call;
    }

    /** fileExists: true exactly when ready and the joined path opens for reading. */
    method FileExists(filePath: CString, fopenSucceeds: bool) returns (ok: bool, call: Option<FileOpen>)
      requires Valid()
      ensures ok <==> IsReady() && fopenSucceeds
      ensures call == if IsReady() then Some(FileOpen(FullPath(MountPoint(), filePath), 'r')) else None
    {
      if !IsReady() {
        return false, None;
      }
      call := Some(FileOpen(FullPath(MountPoint(), filePath), 'r'));
      ok := fopenSucceeds;
    }

    /** createDirectory: true exactly when ready and mkdir of the joined path succeeds. */
    method CreateDirectory(dirPath: CString, mkdirSucceeds: bool) returns (ok: bool, path: Option<CString>)
      requires Valid()
      ensures ok <==> IsReady() && mkdirSucceeds
      ensures path == if IsReady() then Some(FullPath(MountPoint(), dirPath)) else None
    {
      if !IsReady() {
        return false, None;
      }
      path := Some(FullPath(MountPoint(), dirPath));
      ok := mkdirSucceeds;
    }
  }

  /**
   * The lifecycle end to end: a fresh wrapper is not ready and refuses file
   * operations; after a successful initialize and mount it is ready, a write
   * with a successful open and print succeeds, and its paths start with the
   * (cut) mount path; after unmount it is not ready again.
   */
  method Lifecycle(mountPath: CString, filePath: CString) returns (sd: SD, earlyWrite: bool, readyWrite: bool)
    ensures !earlyWrite && readyWrite
    ensures fresh(sd) && sd.Valid() && !sd.IsReady() && sd.isInitialized && sd.MountPoint() == []
  {
    sd := new SD();
    var call;
    earlyWrite, call := sd.WriteToFile(filePath, "x", true, 1);
    assert call == None;
    var ok := sd.Initialize(true);
    ok := sd.Mount(mountPath, true);
    assert sd.IsReady() && sd.MountPoint() == Take(mountPath, MOUNT_POINT_SIZE - 1);
    readyWrite, call := sd.WriteToFile(filePath, "x", true, 1);
    assert call == Some(FileOpen(FullPath(Take(mountPath, MOUNT_POINT_SIZE - 1), filePath), 'w'));
    ok, call := sd.FileExists(filePath, true);
    assert ok && call == Some(FileOpen(FullPath(Take(mountPath, MOUNT_POINT_SIZE - 1), filePath), 'r'));
    ok := sd.Unmount();
  }
}
