/**
 The receiving side of a file transfer.

 The directory is a value: names lead to numbered files (so that a hard link is two names for one file),
 metadata records are kept apart from data files, and a lock belongs to a file. Every operation takes an
 IoPlan saying which of its I/O calls fails, and how much of a torn write reaches the file.
 */
module Files {
  import opened Wrappers
  import opened Names

  const CHUNK_SIZE := 65536
  const MAX_FILE_SIZE := 1024 * 1024 * 1024 * 1024

  type Digest = seq<byte>
  type Key = seq<byte>

  datatype FileError = Permission | Io | Invalid | InvalidChunk | Integrity | WrongPeer

  datatype Manifest = Manifest(name: string, size: nat, sha256: Digest)

  datatype Metadata = Metadata(version: nat, owner: Key, manifest: Manifest)

  /**
   `names` holds the data entries, which Names.RenderedNamesAreDistinct allows to be told apart by role; `records` holds
   the metadata files by transfer, where None is a record whose writing was torn, which never decodes.
   */
  datatype Disk = Disk(
    names: map<FileName, nat>,
    files: map<nat, seq<byte>>,
    records: map<TransferId, Option<Metadata>>,
    locked: set<nat>,
    next: nat)

  datatype IoPlan = IoPlan(failing: nat, torn: nat, removePart: bool, removeMeta: bool)

  datatype Transfer = Transfer(id: TransferId, inode: nat, metadata: Metadata, offset: nat)

  /** Names lead to files, file numbers are not reused, and only files are locked. */
  ghost predicate Structured(d: Disk) {
    && (forall n | n in d.names :: d.names[n] in d.files)
    && (forall i | i in d.files :: i < d.next)
    && d.locked <= d.files.Keys
  }

  predicate Exists(d: Disk, name: FileName) { name in d.names }

  function Unlock(d: Disk, inode: nat): Disk { d.(locked := d.locked - {inode}) }

  function RemoveName(d: Disk, name: FileName): Disk { d.(names := d.names - {name}) }

  function RemoveRecord(d: Disk, id: TransferId): Disk { d.(records := d.records - {id}) }

  /** A write at a cursor: what lay before it stays, what lay under it is replaced. */
  function WriteAt(content: seq<byte>, offset: nat, bytes: seq<byte>): seq<byte>
    requires offset <= |content|
  {
    content[..offset] + bytes + (if offset + |bytes| <= |content| then content[offset + |bytes|..] else [])
  }

  /** Clean-up after a failed begin; each removal may itself fail and is then ignored. */
  function Abandon(d: Disk, id: TransferId, inode: nat, createdMeta: bool, io: IoPlan): Disk {
    var d1 := Unlock(d, inode);
    var d2 := if io.removePart then RemoveName(d1, Part(id)) else d1;
    if createdMeta && io.removeMeta then RemoveRecord(d2, id) else d2
  }

  function BeginTransfer(d: Disk, permitted: bool, owner: Key, manifest: Manifest, id: TransferId, io: IoPlan)
    : (Disk, Result<Transfer, FileError>)
  {
    var metadata := Metadata(1, owner, manifest);
    if !permitted then (d, Err(Permission))
    else if !ValidName(manifest.name) || manifest.size > MAX_FILE_SIZE then (d, Err(Invalid))
    else if io.failing == 0 || Exists(d, Plain(manifest.name)) then (d, Err(Io))
    else if io.failing == 1 || Exists(d, Part(id)) then (d, Err(Io))
    else
      var inode := d.next;
      var created := Disk(d.names[Part(id) := inode], d.files[inode := []], d.records, d.locked, inode + 1);
      if io.failing == 2 then (created, Err(Io))
      else
        var locked := created.(locked := d.locked + {inode});
        if io.failing == 3 || id in d.records then (Abandon(locked, id, inode, false, io), Err(Io))
        else if io.failing == 4 then
          (Abandon(locked.(records := d.records[id := None]), id, inode, true, io), Err(Io))
        else
          var recorded := locked.(records := d.records[id := Some(metadata)]);
          if io.failing == 5 then (Abandon(recorded, id, inode, true, io), Err(Io))
          else if io.failing == 6 then (Unlock(recorded, inode), Err(Io))
          else (recorded, Ok(Transfer(id, inode, metadata, 0)))
  }

  function ResumeTransfer(d: Disk, permitted: bool, owner: Key, id: TransferId, io: IoPlan)
    : (Disk, Result<Transfer, FileError>)
  {
    if !permitted then (d, Err(Permission))
    else if io.failing == 0 || id !in d.records then (d, Err(Io))
    else if d.records[id].None? then (d, Err(Invalid))
    else
      var metadata := d.records[id].value;
      if metadata.version != 1 || !ValidName(metadata.manifest.name) || metadata.manifest.size > MAX_FILE_SIZE then
        (d, Err(Invalid))
      else if metadata.owner != owner then (d, Err(WrongPeer))
      else if io.failing == 1 || Part(id) !in d.names || d.names[Part(id)] !in d.files then (d, Err(Io))
      else
        var inode := d.names[Part(id)];
        var offset := |d.files[inode]|;
        if io.failing == 2 || inode in d.locked || io.failing == 3 then (d, Err(Io))
        else if offset > metadata.manifest.size then (d, Err(Integrity))
        else if io.failing == 4 then (d, Err(Io))
        else (d.(locked := d.locked + {inode}), Ok(Transfer(id, inode, metadata, offset)))
  }

  /** The open handle of a live transfer designates an existing file, with the cursor inside it. */
  predicate Opened(d: Disk, t: Transfer) {
    t.inode in d.files && t.offset <= |d.files[t.inode]|
  }

  function PutChunk(d: Disk, t: Transfer, hash: seq<byte> -> Digest, permitted: bool, offset: nat, bytes: seq<byte>,
                    checksum: Digest, io: IoPlan): (Disk, Transfer, Result<(), FileError>)
    requires Opened(d, t)
  {
    if !permitted then (d, t, Err(Permission))
    else if offset != t.offset || bytes == [] || |bytes| > CHUNK_SIZE
         || offset + |bytes| > t.metadata.manifest.size then (d, t, Err(InvalidChunk))
    else if hash(bytes) != checksum then (d, t, Err(Integrity))
    else if io.failing == 0 then
      var torn := if io.torn < |bytes| then bytes[..io.torn] else bytes;
      (d.(files := d.files[t.inode := WriteAt(d.files[t.inode], t.offset, torn)]), t, Err(Io))
    else
      (d.(files := d.files[t.inode := WriteAt(d.files[t.inode], t.offset, bytes)]),
       t.(offset := t.offset + |bytes|), Ok(()))
  }

  function CancelTransfer(d: Disk, t: Transfer, permitted: bool, io: IoPlan): (Disk, Result<(), FileError>) {
    var d1 := Unlock(d, t.inode);
    if !permitted then (d1, Err(Permission))
    else if io.failing == 0 || Part(t.id) !in d.names then (d1, Err(Io))
    else
      var d2 := RemoveName(d1, Part(t.id));
      if io.failing == 1 || t.id !in d.records then (d2, Err(Io))
      else (RemoveRecord(d2, t.id), Ok(()))
  }

  /** Publication links whatever the part NAME designates, although the hash was taken of the open handle. */
  function FinishTransfer(d: Disk, t: Transfer, hash: seq<byte> -> Digest, permitted: bool, io: IoPlan)
    : (Disk, Result<Manifest, FileError>)
    requires Opened(d, t)
  {
    var manifest := t.metadata.manifest;
    var d1 := Unlock(d, t.inode);
    if !permitted then (d1, Err(Permission))
    else if t.offset != manifest.size then (d1, Err(Integrity))
    else if io.failing == 0 then (d1, Err(Io))
    else if hash(d.files[t.inode]) != manifest.sha256 then (d1, Err(Integrity))
    else if io.failing == 1 then (d1, Err(Io))
    else if io.failing == 2 || Part(t.id) !in d.names || Exists(d, Plain(manifest.name)) then (d1, Err(Io))
    else
      var d2 := d1.(names := d1.names[Plain(manifest.name) := d.names[Part(t.id)]]);
      if io.failing == 3 then (d2, Err(Io))
      else
        var d3 := RemoveName(d2, Part(t.id));
        if io.failing == 4 || t.id !in d.records then (d3, Err(Io))
        else (RemoveRecord(d3, t.id), Ok(manifest))
  }

  function PrefixHash(d: Disk, t: Transfer, hash: seq<byte> -> Digest): Digest
    requires Opened(d, t)
  {
    hash(d.files[t.inode])
  }
}
