/** What every operation on the receiving directory keeps, whoever the peer is and whichever I/O call fails. */
module DirectoryInvariant {
  import opened Wrappers
  import opened Names
  import opened Files

  function PartOf(d: Disk, id: TransferId): Option<nat> {
    if Part(id) in d.names then Some(d.names[Part(id)]) else None
  }

  function RecordOf(d: Disk, id: TransferId): Option<Metadata> {
    if id in d.records then d.records[id] else None
  }

  function Content(d: Disk, inode: nat): seq<byte> {
    if inode in d.files then d.files[inode] else []
  }

  ghost predicate PartsAreSeparate(d: Disk) {
    forall a: TransferId, b: TransferId {:trigger PartOf(d, a), PartOf(d, b)} ::
      a != b && PartOf(d, a).Some? ==> PartOf(d, a) != PartOf(d, b)
  }

  /** A part file that also carries an ordinary name is complete, so no chunk can be accepted for it again. */
  ghost predicate PublishedPartsAreComplete(d: Disk) {
    forall n: FileName, id: TransferId {:trigger d.names[n], PartOf(d, id)} ::
      n in d.names && n.Plain? && PartOf(d, id) == Some(d.names[n]) && RecordOf(d, id).Some? ==>
        |Content(d, d.names[n])| == RecordOf(d, id).value.manifest.size
  }

  ghost predicate PrefixOfSource(content: seq<byte>, hash: seq<byte> -> Digest, sha256: Digest) {
    forall source: seq<byte> {:trigger hash(source)} :: hash(source) == sha256 ==> content <= source
  }

  /** What an honest owner has stored so far is a prefix of the source its manifest describes. */
  ghost predicate HonestPartsArePrefixes(d: Disk, hash: seq<byte> -> Digest, honest: set<Key>) {
    forall id: TransferId {:trigger PartOf(d, id)} ::
      PartOf(d, id).Some? && RecordOf(d, id).Some? && RecordOf(d, id).value.owner in honest ==>
        PrefixOfSource(Content(d, PartOf(d, id).value), hash, RecordOf(d, id).value.manifest.sha256)
  }

  ghost predicate DiskInv(d: Disk, hash: seq<byte> -> Digest, honest: set<Key>) {
    Structured(d) && PartsAreSeparate(d) && PublishedPartsAreComplete(d) && HonestPartsArePrefixes(d, hash, honest)
  }

  /** A live transfer holds the lock of its own part file, whose length is the transfer's offset. */
  ghost predicate Owns(d: Disk, t: Transfer, peer: Key) {
    && PartOf(d, t.id) == Some(t.inode)
    && RecordOf(d, t.id) == Some(t.metadata)
    && t.inode in d.files && t.inode in d.locked
    && |d.files[t.inode]| == t.offset <= t.metadata.manifest.size
    && ValidName(t.metadata.manifest.name)
    && t.metadata.owner == peer
  }

  /** Names once bound stay bound to the same file, and the bytes behind them never change. */
  ghost predicate KeepsOrdinaryFiles(d: Disk, d': Disk) {
    forall n | n in d.names && n.Plain? ::
      n in d'.names && d'.names[n] == d.names[n] && Content(d', d'.names[n]) == Content(d, d.names[n])
  }

  /** Transfers on other files are not disturbed. */
  ghost predicate KeepsOthers(d: Disk, d': Disk, inode: nat) {
    forall t: Transfer, peer: Key {:trigger Owns(d', t, peer)} ::
      Owns(d, t, peer) && t.inode != inode ==> Owns(d', t, peer)
  }

  ghost predicate Respects(d: Disk, d': Disk, inode: nat) {
    KeepsOrdinaryFiles(d, d') && KeepsOthers(d, d', inode)
  }

  lemma RespectIsTransitive(a: Disk, b: Disk, c: Disk, inode: nat)
    requires Respects(a, b, inode) && Respects(b, c, inode)
    ensures Respects(a, c, inode)
  {
  }

  lemma UnlockingKeeps(d: Disk, hash: seq<byte> -> Digest, honest: set<Key>, inode: nat)
    requires DiskInv(d, hash, honest)
    ensures DiskInv(Unlock(d, inode), hash, honest)
    ensures Respects(d, Unlock(d, inode), inode)
  {
    var d' := Unlock(d, inode);
    assert forall id: TransferId :: PartOf(d', id) == PartOf(d, id) && RecordOf(d', id) == RecordOf(d, id);
  }

  /** Creating the empty part file of a new transfer. */
  lemma CreatingKeeps(d: Disk, d': Disk, hash: seq<byte> -> Digest, honest: set<Key>, id: TransferId,
                      record: Option<Option<Metadata>>)
    requires DiskInv(d, hash, honest)
    requires Part(id) !in d.names
    requires d'.names == d.names[Part(id) := d.next] && d'.files == d.files[d.next := []]
    requires d'.records == if record.Some? then d.records[id := record.value] else d.records
    requires d'.next == d.next + 1
    requires d'.locked == d.locked || d'.locked == d.locked + {d.next}
    ensures DiskInv(d', hash, honest) && Respects(d, d', d.next)
  {
    forall other: TransferId ensures other != id ==> PartOf(d', other) == PartOf(d, other) && RecordOf(d', other) == RecordOf(d, other)
    {
    }
    assert PartOf(d', id) == Some(d.next);
    assert forall other: TransferId :: PartOf(d, other) != Some(d.next);
    forall n | n in d.names && n.Plain? ensures n in d'.names && d'.names[n] == d.names[n] && Content(d', d'.names[n]) == Content(d, d.names[n]) {
      assert n != Part(id);
    }
    assert PublishedPartsAreComplete(d') by {
      forall n: FileName, other: TransferId | n in d'.names && n.Plain? && PartOf(d', other) == Some(d'.names[n]) && RecordOf(d', other).Some?
        ensures |Content(d', d'.names[n])| == RecordOf(d', other).value.manifest.size
      {
        assert n != Part(id);
        assert d'.names[n] == d.names[n] && d.names[n] in d.files;
        assert other != id;
        assert PartOf(d, other) == Some(d.names[n]);
      }
    }
  }

  /** Removing the part name of one transfer, or its record. */
  lemma RemovingKeeps(d: Disk, d': Disk, hash: seq<byte> -> Digest, honest: set<Key>, id: TransferId, inode: nat)
    requires DiskInv(d, hash, honest)
    requires PartOf(d, id) == None || PartOf(d, id) == Some(inode)
    requires d' == RemoveName(d, Part(id)) || d' == RemoveRecord(d, id)
    ensures DiskInv(d', hash, honest) && Respects(d, d', inode)
  {
    forall other: TransferId
      ensures other != id ==> PartOf(d', other) == PartOf(d, other) && RecordOf(d', other) == RecordOf(d, other)
      ensures PartOf(d', other).Some? ==> PartOf(d', other) == PartOf(d, other)
      ensures RecordOf(d', other).Some? ==> RecordOf(d', other) == RecordOf(d, other)
    {
    }
    forall n | n in d.names && n.Plain? ensures n in d'.names && d'.names[n] == d.names[n] {
      assert n != Part(id);
    }
    forall t: Transfer, peer: Key | Owns(d, t, peer) && t.inode != inode ensures Owns(d', t, peer) {
      assert t.id != id;
    }
    assert PublishedPartsAreComplete(d') by {
      forall n: FileName, other: TransferId | n in d'.names && n.Plain? && PartOf(d', other) == Some(d'.names[n]) && RecordOf(d', other).Some?
        ensures |Content(d', d'.names[n])| == RecordOf(d', other).value.manifest.size
      {
        assert d'.names[n] == d.names[n];
        assert PartOf(d, other) == Some(d.names[n]);
      }
    }
  }

  lemma AbandoningKeeps(d: Disk, hash: seq<byte> -> Digest, honest: set<Key>, id: TransferId, inode: nat, createdMeta: bool, io: IoPlan)
    requires DiskInv(d, hash, honest) && PartOf(d, id) == Some(inode)
    ensures DiskInv(Abandon(d, id, inode, createdMeta, io), hash, honest)
    ensures Respects(d, Abandon(d, id, inode, createdMeta, io), inode)
  {
    var d1 := Unlock(d, inode);
    UnlockingKeeps(d, hash, honest, inode);
    assert PartOf(d1, id) == PartOf(d, id);
    var d2 := if io.removePart then RemoveName(d1, Part(id)) else d1;
    if io.removePart { RemovingKeeps(d1, d2, hash, honest, id, inode); }
    if createdMeta && io.removeMeta { RemovingKeeps(d2, RemoveRecord(d2, id), hash, honest, id, inode); }
  }

  /** The directory after the steps of a begin up to some point: the part created and locked, its record made and written. */
  function Begun(d: Disk, id: TransferId, record: Option<Option<Metadata>>): Disk {
    Disk(d.names[Part(id) := d.next], d.files[d.next := []], if record.Some? then d.records[id := record.value] else d.records,
         d.locked + {d.next}, d.next + 1)
  }

  function Created(d: Disk, id: TransferId): Disk {
    Disk(d.names[Part(id) := d.next], d.files[d.next := []], d.records, d.locked, d.next + 1)
  }

  /** The ways a begin that created the part file can end: before locking, in success, cleaned up or half so, or unlocked only. */
  predicate EndsAs(d: Disk, d': Disk, id: TransferId, record: Option<Option<Metadata>>, io: IoPlan) {
    || d' == Created(d, id) || d' == Begun(d, id, record)
    || d' == Abandon(Begun(d, id, record), id, d.next, record.Some?, io)
    || d' == Unlock(Begun(d, id, record), d.next)
  }

  lemma EndingKeeps(d: Disk, d': Disk, hash: seq<byte> -> Digest, honest: set<Key>, id: TransferId, record: Option<Option<Metadata>>, io: IoPlan)
    requires DiskInv(d, hash, honest) && Part(id) !in d.names && EndsAs(d, d', id, record, io)
    ensures DiskInv(d', hash, honest) && Respects(d, d', d.next)
  {
    if d' == Created(d, id) {
      CreatingKeeps(d, d', hash, honest, id, None);
    } else {
      var locked := Begun(d, id, record);
      CreatingKeeps(d, locked, hash, honest, id, record);
      if d' != locked {
        EndedKeeps(locked, d', hash, honest, id, d.next, record.Some?, io);
        RespectIsTransitive(d, locked, d', d.next);
      }
    }
  }

  lemma EndedKeeps(locked: Disk, d': Disk, hash: seq<byte> -> Digest, honest: set<Key>, id: TransferId, inode: nat, createdMeta: bool, io: IoPlan)
    requires DiskInv(locked, hash, honest) && PartOf(locked, id) == Some(inode)
    requires d' == Abandon(locked, id, inode, createdMeta, io) || d' == Unlock(locked, inode)
    ensures DiskInv(d', hash, honest) && Respects(locked, d', inode)
  {
    AbandoningKeeps(locked, hash, honest, id, inode, createdMeta, io);
    UnlockingKeeps(locked, hash, honest, inode);
  }

  lemma BeginComesTo(d: Disk, permitted: bool, owner: Key, manifest: Manifest, id: TransferId, io: IoPlan)
    returns (d': Disk, record: Option<Option<Metadata>>)
    ensures d' == BeginTransfer(d, permitted, owner, manifest, id, io).0
    ensures d' == d || (Part(id) !in d.names && EndsAs(d, d', id, record, io))
  {
    d' := BeginTransfer(d, permitted, owner, manifest, id, io).0;
    record := if io.failing == 3 || id in d.records then None else Some(if io.failing == 4 then None else Some(Metadata(1, owner, manifest)));
  }

  /** Beginning a transfer, whether or not it succeeds, disturbs nobody. */
  lemma BeginKeeps(d: Disk, hash: seq<byte> -> Digest, honest: set<Key>, permitted: bool, owner: Key, manifest: Manifest,
                   id: TransferId, io: IoPlan)
    requires DiskInv(d, hash, honest)
    ensures DiskInv(BeginTransfer(d, permitted, owner, manifest, id, io).0, hash, honest)
    ensures Respects(d, BeginTransfer(d, permitted, owner, manifest, id, io).0, d.next)
  {
    var d', record := BeginComesTo(d, permitted, owner, manifest, id, io);
    if d' != d { EndingKeeps(d, d', hash, honest, id, record, io); }
  }

  predicate Announceable(t: Transfer) { t.metadata.version == 1 && t.metadata.manifest.size <= MAX_FILE_SIZE }

  /** A successful begin hands its owner a locked, empty part file nobody else has. */
  lemma BeginOwns(d: Disk, permitted: bool, owner: Key, manifest: Manifest, id: TransferId, io: IoPlan)
    ensures var (d', r) := BeginTransfer(d, permitted, owner, manifest, id, io);
            r.Ok? ==>
              permitted && Owns(d', r.value, owner) && r.value.inode == d.next && r.value.metadata.manifest == manifest && Announceable(r.value)
  {
  }

  lemma LockingKeeps(d: Disk, hash: seq<byte> -> Digest, honest: set<Key>, inode: nat)
    requires DiskInv(d, hash, honest) && inode in d.files
    ensures DiskInv(d.(locked := d.locked + {inode}), hash, honest)
    ensures Respects(d, d.(locked := d.locked + {inode}), inode)
  {
    var d' := d.(locked := d.locked + {inode});
    assert forall id: TransferId :: PartOf(d', id) == PartOf(d, id) && RecordOf(d', id) == RecordOf(d, id);
  }

  /** Resuming re-opens exactly the recorded transfer, at the length already stored, and only for its owner. */
  lemma ResumeKeeps(d: Disk, hash: seq<byte> -> Digest, honest: set<Key>, permitted: bool, owner: Key, id: TransferId, io: IoPlan)
    requires DiskInv(d, hash, honest)
    ensures var (d', r) := ResumeTransfer(d, permitted, owner, id, io);
            && DiskInv(d', hash, honest)
            && (r.Err? ==> d' == d)
            && (r.Ok? ==>
                  permitted && Owns(d', r.value, owner) && r.value.id == id && r.value.inode !in d.locked
                  && Respects(d, d', r.value.inode))
  {
    var (d', r) := ResumeTransfer(d, permitted, owner, id, io);
    if r.Ok? {
      LockingKeeps(d, hash, honest, r.value.inode);
    }
  }

  /** The bytes of a chunk continue every source the transfer's manifest could describe. */
  ghost predicate ContinuesSource(d: Disk, t: Transfer, hash: seq<byte> -> Digest, bytes: seq<byte>) {
    PrefixOfSource(Content(d, t.inode) + bytes, hash, t.metadata.manifest.sha256)
  }

  /** Replacing the content of a live, still incomplete part by a longer one. */
  lemma GrowingKeeps(d: Disk, hash: seq<byte> -> Digest, honest: set<Key>, t: Transfer, peer: Key, content: seq<byte>)
    requires DiskInv(d, hash, honest) && Owns(d, t, peer)
    requires t.offset < t.metadata.manifest.size
    requires peer in honest ==> PrefixOfSource(content, hash, t.metadata.manifest.sha256)
    ensures var d' := d.(files := d.files[t.inode := content]);
            DiskInv(d', hash, honest) && Respects(d, d', t.inode)
  {
    var d' := d.(files := d.files[t.inode := content]);
    assert forall id: TransferId :: PartOf(d', id) == PartOf(d, id) && RecordOf(d', id) == RecordOf(d, id);
    assert PartOf(d, t.id) == Some(t.inode);
    assert forall n | n in d.names && n.Plain? :: d.names[n] != t.inode;
  }

  /** A chunk, complete or torn, keeps the directory sound; a complete one keeps the offset at the file's length. */
  lemma ChunkKeeps(d: Disk, hash: seq<byte> -> Digest, honest: set<Key>, t: Transfer, peer: Key, permitted: bool, offset: nat,
                   bytes: seq<byte>, checksum: Digest, io: IoPlan)
    requires DiskInv(d, hash, honest) && Owns(d, t, peer)
    requires peer in honest && offset == t.offset ==> ContinuesSource(d, t, hash, bytes)
    ensures var (d', t', r) := PutChunk(d, t, hash, permitted, offset, bytes, checksum, io);
            && DiskInv(d', hash, honest) && Respects(d, d', t.inode) && t'.inode == t.inode && t'.metadata == t.metadata
            && (r.Ok? ==>
                  permitted && Owns(d', t', peer) && offset == t.offset && t'.offset == offset + |bytes|
                  && Content(d', t.inode) == Content(d, t.inode) + bytes)
  {
    var (d', t', r) := PutChunk(d, t, hash, permitted, offset, bytes, checksum, io);
    var content := Content(d, t.inode);
    assert content[..t.offset] == content;
    if d' != d {
      var torn := if io.torn < |bytes| then bytes[..io.torn] else bytes;
      var written := if r.Ok? then bytes else torn;
      assert WriteAt(content, t.offset, written) == content + written by {
        if written == [] { assert content + [] == content; }
      }
      assert content + written <= content + bytes;
      GrowingKeeps(d, hash, honest, t, peer, content + written);
    }
  }

  /**
   A transfer that is let go, even after a chunk was torn, is reopened by its owner as it was, at the length that is stored;
   anyone else is refused.
   */
  lemma PausedTransfersReopen(d: Disk, hash: seq<byte> -> Digest, t: Transfer, peer: Key, offset: nat, bytes: seq<byte>,
                              checksum: Digest, io: IoPlan, anyone: Key, again: IoPlan)
    requires Owns(d, t, peer) && Announceable(t) && again.failing > 4
    ensures var (d', t', _) := PutChunk(d, t, hash, true, offset, bytes, checksum, io);
            var r := ResumeTransfer(Unlock(d', t.inode), true, anyone, t.id, again);
            if anyone == peer then r == (d', Ok(t'.(offset := |Content(d', t.inode)|))) && Announceable(t') else r.1 == Err(WrongPeer)
  {
    var (d', t', r) := PutChunk(d, t, hash, true, offset, bytes, checksum, io);
    assert d'.locked - {t.inode} + {t.inode} == d'.locked;
    var content := Content(d, t.inode);
    assert content[..t.offset] == content;
    assert PartOf(d', t.id) == PartOf(d, t.id) && RecordOf(d', t.id) == RecordOf(d, t.id);
    assert |Content(d', t.inode)| <= t.metadata.manifest.size;
  }

  lemma CancelKeeps(d: Disk, hash: seq<byte> -> Digest, honest: set<Key>, t: Transfer, peer: Key, permitted: bool, io: IoPlan)
    requires DiskInv(d, hash, honest) && Owns(d, t, peer)
    ensures var (d', r) := CancelTransfer(d, t, permitted, io);
            && DiskInv(d', hash, honest) && Respects(d, d', t.inode)
            && (r.Ok? ==> permitted && PartOf(d', t.id).None? && RecordOf(d', t.id).None?)
  {
    var (d', r) := CancelTransfer(d, t, permitted, io);
    var d1 := Unlock(d, t.inode);
    UnlockingKeeps(d, hash, honest, t.inode);
    assert PartOf(d1, t.id) == PartOf(d, t.id);
    if d' != d1 {
      var d2 := RemoveName(d1, Part(t.id));
      RemovingKeeps(d1, d2, hash, honest, t.id, t.inode);
      RespectIsTransitive(d, d1, d2, t.inode);
      if d' != d2 {
        RemovingKeeps(d2, d', hash, honest, t.id, t.inode);
        RespectIsTransitive(d, d2, d', t.inode);
      }
    }
  }

  /** A file carries exactly what a manifest announces. */
  ghost predicate Delivers(d: Disk, manifest: Manifest, hash: seq<byte> -> Digest) {
    && Plain(manifest.name) in d.names
    && |Content(d, d.names[Plain(manifest.name)])| == manifest.size
    && hash(Content(d, d.names[Plain(manifest.name)])) == manifest.sha256
  }

  /** Giving a complete, verified part file its ordinary name. */
  lemma LinkingKeeps(d: Disk, d': Disk, hash: seq<byte> -> Digest, honest: set<Key>, t: Transfer, peer: Key)
    requires DiskInv(d, hash, honest) && Owns(d, t, peer)
    requires t.offset == t.metadata.manifest.size && !Exists(d, Plain(t.metadata.manifest.name))
    requires d' == Unlock(d, t.inode).(names := d.names[Plain(t.metadata.manifest.name) := t.inode])
    ensures DiskInv(d', hash, honest) && Respects(d, d', t.inode)
    ensures PartOf(d', t.id) == Some(t.inode) && RecordOf(d', t.id) == Some(t.metadata)
  {
    var name := Plain(t.metadata.manifest.name);
    forall id: TransferId ensures PartOf(d', id) == PartOf(d, id) && RecordOf(d', id) == RecordOf(d, id) {
      assert name != Part(id);
    }
    forall n: FileName, id: TransferId | n in d'.names && n.Plain? && PartOf(d', id) == Some(d'.names[n]) && RecordOf(d', id).Some?
      ensures |Content(d', d'.names[n])| == RecordOf(d', id).value.manifest.size
    {
      if n == name {
        assert PartOf(d, id) == PartOf(d, t.id);
        assert id == t.id;
      } else {
        assert d'.names[n] == d.names[n] && PartOf(d, id) == Some(d.names[n]);
      }
    }
  }

  /** Finishing publishes only what the manifest announces, only under a fresh name, and reports success only then. */
  lemma FinishKeeps(d: Disk, hash: seq<byte> -> Digest, honest: set<Key>, t: Transfer, peer: Key, permitted: bool, io: IoPlan)
    requires DiskInv(d, hash, honest) && Owns(d, t, peer)
    ensures var (d', r) := FinishTransfer(d, t, hash, permitted, io);
            && DiskInv(d', hash, honest) && Respects(d, d', t.inode)
            && (forall n | n in d'.names && n !in d.names ::
                  n == Plain(t.metadata.manifest.name) && d'.names[n] == t.inode && Delivers(d', t.metadata.manifest, hash))
            && (r.Ok? ==>
                  permitted && r.value == t.metadata.manifest && !Exists(d, Plain(r.value.name)) && Delivers(d', r.value, hash)
                  && d'.names[Plain(r.value.name)] == t.inode && Content(d', t.inode) == Content(d, t.inode))
  {
    var (d', r) := FinishTransfer(d, t, hash, permitted, io);
    var d1 := Unlock(d, t.inode);
    UnlockingKeeps(d, hash, honest, t.inode);
    if d' != d1 {
      var name := Plain(t.metadata.manifest.name);
      var d2 := d1.(names := d1.names[name := d.names[Part(t.id)]]);
      assert d.names[Part(t.id)] == t.inode;
      LinkingKeeps(d, d2, hash, honest, t, peer);
      assert Content(d2, t.inode) == d.files[t.inode];
      if d' != d2 {
        var d3 := RemoveName(d2, Part(t.id));
        RemovingKeeps(d2, d3, hash, honest, t.id, t.inode);
        RespectIsTransitive(d, d2, d3, t.inode);
        if d' != d3 {
          RemovingKeeps(d3, d', hash, honest, t.id, t.inode);
          RespectIsTransitive(d, d3, d', t.inode);
        }
      }
    }
  }

  /** For an honest owner and a collision-free hash, what is published is the source itself. */
  lemma HonestFinishPublishesTheSource(d: Disk, hash: seq<byte> -> Digest, honest: set<Key>, t: Transfer, peer: Key,
                                       permitted: bool, io: IoPlan, source: seq<byte>)
    requires DiskInv(d, hash, honest) && Owns(d, t, peer) && CollisionFree(hash)
    requires hash(source) == t.metadata.manifest.sha256
    ensures var (d', r) := FinishTransfer(d, t, hash, permitted, io);
            r.Ok? ==> Plain(r.value.name) in d'.names && Content(d', d'.names[Plain(r.value.name)]) == source
  {
    FinishKeeps(d, hash, honest, t, peer, permitted, io);
  }
}
