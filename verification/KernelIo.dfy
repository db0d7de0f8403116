/**
 The kernel's descriptor code over its tables, in place, against the functions of
 `Descriptors`.
 */
module KernelIo {
  import opened Bytes
  import opened CString
  import opened Floppy
  import opened Descriptors

  class Kernio {
    const hw: Hardware
    const kernel: array<FileDescriptor>
    const user: array<Table>
    var typed: seq<Byte>

    predicate Valid() {
      kernel.Length == 6 && user.Length == 9 && |hw.stale| == 512
    }

    function Abs(): Io
      reads this, kernel, user
      requires Valid()
    {
      Io(kernel[..], user[..], typed)
    }

    constructor (hw: Hardware, typed: seq<Byte>)
      requires |hw.stale| == 512
      ensures Valid() && fresh(kernel) && fresh(user) && this.hw == hw
      ensures Abs() == Io(EMPTY, seq(9, _ => EMPTY), typed)
    {
      this.hw := hw;
      this.typed := typed;
      kernel := new FileDescriptor[6](_ => ZERO);
      user := new Table[9](_ => EMPTY);
    }

    /** Assigns one descriptor of the table that `pid` selects. */
    method Store(pid: nat, fd: nat, d: FileDescriptor)
      requires Valid() && pid <= 9 && fd < 6
      modifies kernel, user
      ensures Abs() == WithTable(old(Abs()), pid, TableOf(old(Abs()), pid)[fd := d])
    {
      if pid == 0 {
        kernel[fd] := d;
      } else {
        user[pid - 1] := user[pid - 1][fd := d];
      }
    }

    method Open(path: string, pid: nat, root: Root) returns (fd: int)
      requires Valid() && pid <= 9
      modifies kernel, user
      ensures fd == OpenSlot(path) && Abs() == Descriptors.Open(old(Abs()), path, pid, root)
    {
      fd := -1;
      var t := TableOf(Abs(), pid);
      if path == "/dev/fda" {
        fd := 3;
        Store(pid, fd, t[fd].(pos := 0, pfd := -1, size := 65535));
      } else if path == "/dev/stdin" {
        fd := 0;
        Store(pid, fd, FileDescriptor(0, 0, -1, 0));
      } else if path == "/dev/stdout" {
        fd := 1;
        Store(pid, fd, FileDescriptor(0, 0, -1, 0));
      } else if path == "/dev/fdb" {
        fd := 4;
        Store(pid, fd, t[fd].(pos := 0, pfd := -1, size := 65535));
      } else if path == "/" {
        fd := 5;
        Store(pid, fd, FileDescriptor(0, root.size, 4, root.start));
      }
    }

    method Close(fd: nat, pid: nat)
      requires Valid() && fd < 6 && pid <= 9
      modifies kernel, user
      ensures Abs() == Descriptors.Close(old(Abs()), fd, pid)
    {
      Store(pid, fd, ZERO);
    }

    method Lseek(fd: nat, offset: Dword, pid: nat)
      requires Valid() && fd < 6 && pid <= 9
      modifies kernel, user
      ensures Abs() == Descriptors.Lseek(old(Abs()), fd, offset, pid)
    {
      var t := TableOf(Abs(), pid);
      Store(pid, fd, t[fd].(pos := offset));
    }

    method AdvancePos(fd: nat, n: Dword)
      requires Valid() && fd < 6
      modifies kernel
      ensures Abs() == Advance(old(Abs()), fd, n)
    {
      kernel[fd] := kernel[fd].(pos := (kernel[fd].pos + n) % 0x1_0000_0000);
    }

    /** `read` on a descriptor without a parent; false when the call does not come back. */
    method ReadLeaf(fd: nat, buf: array<Byte>, count: Dword) returns (ok: bool, n: Dword)
      requires Valid() && fd < 6 && count <= buf.Length
      modifies this`typed, kernel, buf
      ensures match Descriptors.ReadLeaf(hw, old(Abs()), fd, old(buf[..]), count)
              case Done(io, b, m) => ok && Abs() == io && buf[..] == b && n == m
              case _ => !ok
    {
      ok, n := true, 0;
      if fd == 3 || fd == 4 {
        ok := ReadDevice(if fd == 3 then hw.diskA else hw.diskB, hw.stale, buf, kernel[fd].pos, count);
        n := count;
      } else if fd == 0 {
        if |typed| < count {
          return false, 0;
        }
        MemCpy(buf, 0, typed[..count]);
        typed := typed[count..];
      } else {
        n := hw.junk;
      }
      if ok {
        AdvancePos(fd, n);
      }
    }

    method Read(fd: nat, buf: array<Byte>, count: Dword, pid: nat, ghost k: nat) returns (ok: bool, n: Dword)
      requires Valid() && count <= buf.Length && pid <= 9 && Within(Links(kernel[..]), fd, k)
      modifies this`typed, kernel, user, buf
      ensures match Descriptors.Read(hw, old(Abs()), fd, old(buf[..]), count, pid, k)
              case Done(io, b, m) => ok && Abs() == io && buf[..] == b && n == m
              case _ => !ok
      decreases k
    {
      var d := kernel[fd];
      if d.pfd != -1 {
        ghost var links := Links(kernel[..]);
        assert links[fd] == d.pfd && Within(links, d.pfd, k - 1);
        Lseek(d.pfd, (d.pfdOffset + d.pos) % 0x1_0000_0000, pid);
        assert Links(kernel[..]) == links;
        ok, n := Read(d.pfd, buf, count, 0, k - 1);
        if ok {
          AdvancePos(fd, n);
        }
      } else {
        ok, n := ReadLeaf(fd, buf, count);
      }
    }
  }
}
