/** The receiver's objects: a directory capability, and one incoming transfer holding an open, locked part file. */
module Receiver {
  import opened Wrappers
  import opened Names
  import opened Files
  import opened P = Permissions

  /** Hashing a file read in pieces of any size gives the hash of the file: reads may be short but end only at its end. */
  method HashReader(content: seq<byte>, hash: seq<byte> -> Digest, pieces: nat -> nat) returns (digest: Digest)
    ensures digest == hash(content)
  {
    var absorbed: seq<byte> := [];
    var i := 0;
    while |absorbed| < |content|
      invariant absorbed <= content
      decreases |content| - |absorbed|
    {
      var left := |content| - |absorbed|;
      var most := if left < CHUNK_SIZE then left else CHUNK_SIZE;
      var count := if 1 <= pieces(i) <= most then pieces(i) else most;
      var buffer := content[|absorbed|..|absorbed| + count];
      absorbed := absorbed + buffer;
      i := i + 1;
    }
    assert absorbed == content;
    digest := hash(absorbed);
  }

  class Directory {
    var disk: Disk

    constructor (disk: Disk)
      ensures this.disk == disk
    {
      this.disk := disk;
    }

    method CreatePart(name: FileName, fails: bool) returns (ok: bool, inode: nat)
      modifies this
      ensures ok <==> !fails && !Exists(old(disk), name)
      ensures ok ==> inode == old(disk).next
      ensures disk == if !ok then old(disk) else
                Disk(old(disk).names[name := inode], old(disk).files[inode := []], old(disk).records, old(disk).locked, inode + 1)
    {
      ok, inode := !fails && !Exists(disk, name), disk.next;
      if ok {
        disk := Disk(disk.names[name := inode], disk.files[inode := []], disk.records, disk.locked, inode + 1);
      }
    }

    method TryLock(inode: nat, fails: bool) returns (ok: bool)
      modifies this
      ensures ok <==> !fails && inode !in old(disk).locked
      ensures disk == if ok then old(disk).(locked := old(disk).locked + {inode}) else old(disk)
    {
      ok := !fails && inode !in disk.locked;
      if ok { disk := disk.(locked := disk.locked + {inode}); }
    }

    method Drop(inode: nat)
      modifies this
      ensures disk == Unlock(old(disk), inode)
    {
      disk := disk.(locked := disk.locked - {inode});
    }

    method RemovePart(name: FileName, fails: bool) returns (ok: bool)
      modifies this
      ensures ok <==> !fails && name in old(disk).names
      ensures disk == if ok then RemoveName(old(disk), name) else old(disk)
    {
      ok := !fails && name in disk.names;
      if ok { disk := disk.(names := disk.names - {name}); }
    }

    method RemoveMeta(id: TransferId, fails: bool) returns (ok: bool)
      modifies this
      ensures ok <==> !fails && id in old(disk).records
      ensures disk == if ok then RemoveRecord(old(disk), id) else old(disk)
    {
      ok := !fails && id in disk.records;
      if ok { disk := disk.(records := disk.records - {id}); }
    }

    method PutRecord(id: TransferId, record: Option<Metadata>)
      modifies this
      ensures disk == old(disk).(records := old(disk).records[id := record])
    {
      disk := disk.(records := disk.records[id := record]);
    }

    /** Atomic, and refused when the target exists. */
    method HardLink(from: FileName, to: FileName, fails: bool) returns (ok: bool)
      modifies this
      ensures ok <==> !fails && from in old(disk).names && !Exists(old(disk), to)
      ensures disk == if ok then old(disk).(names := old(disk).names[to := old(disk).names[from]]) else old(disk)
    {
      ok := !fails && from in disk.names && !Exists(disk, to);
      if ok { disk := disk.(names := disk.names[to := disk.names[from]]); }
    }

    method Write(inode: nat, offset: nat, bytes: seq<byte>)
      requires inode in disk.files && offset <= |disk.files[inode]|
      modifies this
      ensures disk == old(disk).(files := old(disk).files[inode := WriteAt(old(disk).files[inode], offset, bytes)])
    {
      disk := disk.(files := disk.files[inode := WriteAt(disk.files[inode], offset, bytes)]);
    }
  }

  method Begin(directory: Directory, consent: Consent, owner: Key, manifest: Manifest, id: TransferId, io: IoPlan)
    returns (r: Result<Transfer, FileError>)
    requires Structured(directory.disk)
    modifies directory
    ensures (directory.disk, r) == BeginTransfer(old(directory.disk), Permits(consent.Value(), FileManager), owner, manifest, id, io)
  {
    var permitted := consent.Require(FileManager);
    if permitted.Err? { return Err(FileError.Permission); }
    if !ValidName(manifest.name) || manifest.size > MAX_FILE_SIZE { return Err(Invalid); }
    if io.failing == 0 || Exists(directory.disk, Plain(manifest.name)) { return Err(Io); }
    var metadata := Metadata(1, owner, manifest);
    var created, inode := directory.CreatePart(Part(id), io.failing == 1);
    if !created { return Err(Io); }
    var locked := directory.TryLock(inode, io.failing == 2);
    if !locked { return Err(Io); }
    var failed, createdMeta := io.failing == 3 || id in directory.disk.records, false;
    if !failed {
      createdMeta := true;
      directory.PutRecord(id, None);
      if io.failing == 4 {
        failed := true;
      } else {
        directory.PutRecord(id, Some(metadata));
        assert directory.disk.records == old(directory.disk).records[id := Some(metadata)];
        failed := io.failing == 5;
      }
    }
    if failed {
      directory.Drop(inode);
      var _ := directory.RemovePart(Part(id), !io.removePart);
      if createdMeta {
        var _ := directory.RemoveMeta(id, !io.removeMeta);
      }
      assert directory.disk == BeginTransfer(old(directory.disk), true, owner, manifest, id, io).0;
      return Err(Io);
    }
    if io.failing == 6 {
      directory.Drop(inode);
      return Err(Io);
    }
    return Ok(Transfer(id, inode, metadata, 0));
  }

  method Resume(directory: Directory, consent: Consent, owner: Key, id: TransferId, io: IoPlan)
    returns (r: Result<Transfer, FileError>)
    requires Structured(directory.disk)
    modifies directory
    ensures (directory.disk, r) == ResumeTransfer(old(directory.disk), Permits(consent.Value(), FileManager), owner, id, io)
  {
    var permitted := consent.Require(FileManager);
    if permitted.Err? { return Err(FileError.Permission); }
    if io.failing == 0 || id !in directory.disk.records { return Err(Io); }
    var record := directory.disk.records[id];
    if record.None? { return Err(Invalid); }
    var metadata := record.value;
    if metadata.version != 1 || !ValidName(metadata.manifest.name) || metadata.manifest.size > MAX_FILE_SIZE {
      return Err(Invalid);
    }
    if metadata.owner != owner { return Err(WrongPeer); }
    if io.failing == 1 || Part(id) !in directory.disk.names { return Err(Io); }
    var inode := directory.disk.names[Part(id)];
    var offset := |directory.disk.files[inode]|;
    var locked := directory.TryLock(inode, io.failing == 2);
    if !locked { return Err(Io); }
    var error: Option<FileError> := None;
    if io.failing == 3 {
      error := Some(Io);
    } else if offset > metadata.manifest.size {
      error := Some(Integrity);
    } else if io.failing == 4 {
      error := Some(Io);
    }
    if error.Some? {
      directory.Drop(inode);
      return Err(error.value);
    }
    return Ok(Transfer(id, inode, metadata, offset));
  }

  /** An open transfer; the source consumes it when it is paused, cancelled or finished, which is what `live` records. */
  class IncomingTransfer {
    const directory: Directory
    const id: TransferId
    const inode: nat
    const metadata: Metadata
    var offset: nat
    var live: bool

    ghost function Value(): Transfer reads this { Transfer(id, inode, metadata, offset) }

    ghost predicate Valid() reads this, directory {
      live && Opened(directory.disk, Value())
    }

    constructor (directory: Directory, t: Transfer)
      requires Opened(directory.disk, t)
      ensures Valid() && Value() == t && this.directory == directory
    {
      this.directory, id, inode, metadata, offset, live := directory, t.id, t.inode, t.metadata, t.offset, true;
    }

    method PrefixHash(hash: seq<byte> -> Digest, pieces: nat -> nat) returns (digest: Digest)
      requires Valid()
      ensures digest == Files.PrefixHash(directory.disk, Value(), hash)
    {
      digest := HashReader(directory.disk.files[inode], hash, pieces);
    }

    method WriteChunk(consent: Consent, hash: seq<byte> -> Digest, offset: nat, bytes: seq<byte>, checksum: Digest, io: IoPlan)
      returns (r: Result<(), FileError>)
      requires Valid()
      modifies this, directory
      ensures Valid()
      ensures (directory.disk, Value(), r) ==
              PutChunk(old(directory.disk), old(Value()), hash, Permits(old(consent.Value()), FileManager), offset, bytes, checksum, io)
    {
      var permitted := consent.Require(FileManager);
      if permitted.Err? { return Err(FileError.Permission); }
      if offset != this.offset || bytes == [] || |bytes| > CHUNK_SIZE || offset + |bytes| > metadata.manifest.size {
        return Err(InvalidChunk);
      }
      if hash(bytes) != checksum { return Err(Integrity); }
      if io.failing == 0 {
        directory.Write(inode, this.offset, if io.torn < |bytes| then bytes[..io.torn] else bytes);
        return Err(Io);
      }
      directory.Write(inode, this.offset, bytes);
      this.offset := this.offset + |bytes|;
      return Ok(());
    }

    method Pause(syncFails: bool) returns (r: Result<TransferId, FileError>)
      requires Valid()
      modifies this, directory
      ensures !live && directory.disk == Unlock(old(directory.disk), inode)
      ensures r == if syncFails then Err(Io) else Ok(id)
    {
      live := false;
      directory.Drop(inode);
      r := if syncFails then Err(Io) else Ok(id);
    }

    method Cancel(consent: Consent, io: IoPlan) returns (r: Result<(), FileError>)
      requires Valid()
      modifies this, directory
      ensures !live
      ensures (directory.disk, r) == CancelTransfer(old(directory.disk), old(Value()), Permits(old(consent.Value()), FileManager), io)
    {
      var permitted := consent.Require(FileManager);
      live := false;
      directory.Drop(inode);
      if permitted.Err? { return Err(FileError.Permission); }
      var ok := directory.RemovePart(Part(id), io.failing == 0);
      if !ok { return Err(Io); }
      ok := directory.RemoveMeta(id, io.failing == 1);
      return if ok then Ok(()) else Err(Io);
    }

    method Finish(consent: Consent, hash: seq<byte> -> Digest, pieces: nat -> nat, io: IoPlan) returns (r: Result<Manifest, FileError>)
      requires Valid()
      modifies this, directory
      ensures !live
      ensures (directory.disk, r) == FinishTransfer(old(directory.disk), old(Value()), hash, Permits(old(consent.Value()), FileManager), io)
    {
      var permitted := consent.Require(FileManager);
      var error: Option<FileError> := None;
      if permitted.Err? {
        error := Some(FileError.Permission);
      } else if offset != metadata.manifest.size {
        error := Some(Integrity);
      } else if io.failing == 0 {
        error := Some(Io);
      } else {
        var digest := PrefixHash(hash, pieces);
        if digest != metadata.manifest.sha256 {
          error := Some(Integrity);
        } else if io.failing == 1 {
          error := Some(Io);
        }
      }
      live := false;
      if error.Some? {
        directory.Drop(inode);
        return Err(error.value);
      }
      var ok := directory.HardLink(Part(id), Plain(metadata.manifest.name), io.failing == 2);
      if ok {
        ok := directory.RemovePart(Part(id), io.failing == 3);
        if ok {
          ok := directory.RemoveMeta(id, io.failing == 4);
        }
      }
      directory.Drop(inode);
      return if ok then Ok(metadata.manifest) else Err(Io);
    }
  }
}
