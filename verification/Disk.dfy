/**
 One directory: names, the inodes they link to, and the bytes of each inode.

 Every system call either takes effect in full or leaves the directory as it was; the
 caller decides which, so that any call may fail.
 */
module Disk {
  import opened Wrappers

  // A destination, or a name minted by CreateTemp.  Minted names are never reused, so they carry
  // the Pending that minted them and a serial number.
  datatype Name = Public(path: string) | Private(owner: nat, serial: nat)

  // Files that existed before, and the three kinds of file a Pending makes.
  datatype Ino =
    | Original(n: nat)
    | Staged(owner: nat)
    | Reserved(owner: nat, serial: nat)
    | Copied(owner: nat, serial: nat)

  datatype Fs = Fs(dir: map<Name, Ino>, data: map<Ino, Bytes>)

  function Read(fs: Fs, i: Ino): Bytes {
    if i in fs.data then fs.data[i] else []
  }

  /** What a reader sees under a name. */
  function Content(fs: Fs, n: Name): Option<Bytes> {
    if n in fs.dir then Some(Read(fs, fs.dir[n])) else None
  }

  function CreateFile(fs: Fs, n: Name, i: Ino): Fs {
    Fs(fs.dir[n := i], fs.data[i := []])
  }

  function Append(fs: Fs, i: Ino, chunk: Bytes): Fs {
    fs.(data := fs.data[i := Read(fs, i) + chunk])
  }

  function Remove(fs: Fs, n: Name): Fs {
    fs.(dir := fs.dir - {n})
  }

  function Link(fs: Fs, source: Name, target: Name): Fs
    requires source in fs.dir
  {
    fs.(dir := fs.dir[target := fs.dir[source]])
  }

  // Renaming one hard link of a file onto another one does nothing (POSIX rename).
  function Rename(fs: Fs, source: Name, target: Name): Fs
    requires source in fs.dir
  {
    if target in fs.dir && fs.dir[target] == fs.dir[source] then fs
    else fs.(dir := (fs.dir - {source})[target := fs.dir[source]])
  }

  function Swap(fs: Fs, left: Name, right: Name): Fs
    requires left in fs.dir && right in fs.dir
  {
    fs.(dir := fs.dir[left := fs.dir[right]][right := fs.dir[left]])
  }
}
