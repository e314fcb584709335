/** What the replies and the audit records of a served session say about the directory it leaves behind. */
module SessionEffects {
  import opened Wrappers
  import opened Names
  import opened Files
  import opened P = Permissions
  import opened Endpoint
  import opened DirectoryInvariant
  import opened SessionTrace

  /** The messages with which a transfer ends. */
  predicate Closing(m: Message) { m.Pause? || m.Commit? || m.Cancel? }

  /** The bytes a peer sends in chunks until it pauses, commits or cancels. */
  function Data(inbox: seq<(Message, Env)>): seq<byte>
    decreases |inbox|
  {
    if inbox == [] || Closing(inbox[0].0) then []
    else (if inbox[0].0.Chunk? then inbox[0].0.bytes else []) + Data(inbox[1..])
  }

  /** What a directory holds of a transfer. */
  function Stored(d: Disk, id: TransferId): seq<byte> { if PartOf(d, id).Some? then Content(d, PartOf(d, id).value) else [] }

  // -----------------------------------------------------------------------------------------------------------------
  // What each answer means
  // -----------------------------------------------------------------------------------------------------------------

  /** The part and its record are gone, and nothing else is. */
  ghost predicate Withdrawn(from: Disk, d: Disk, id: TransferId) {
    d.names == from.names - {Part(id)} && d.records == from.records - {id}
  }

  /** The part holds just these bytes, with its record, and nobody holds it. */
  ghost predicate Resumable(from: Disk, d: Disk, id: TransferId, data: seq<byte>) {
    && d.names - {Part(id)} == from.names - {Part(id)} && d.records - {id} == from.records - {id}
    && PartOf(d, id).Some? && PartOf(d, id).value !in d.locked && RecordOf(d, id).Some?
    && Stored(d, id) == data
  }

  /** Exactly these bytes are there under a name that was free; the part and its record are gone. */
  ghost predicate Appeared(from: Disk, d: Disk, id: TransferId, name: string, data: seq<byte>) {
    && Plain(name) in d.names && Plain(name) !in from.names && Content(d, d.names[Plain(name)]) == data
    && d.names == (from.names - {Part(id)})[Plain(name) := d.names[Plain(name)]] && d.records == from.records - {id}
  }

  /** Answers that say something about a transfer. */
  predicate About(m: Message) { m.Ready? || m.Paused? || m.Cancelled? || m.Complete? }

  ghost predicate Honoured(from: Disk, d: Disk, id: TransferId, m: Message, data: seq<byte>) {
    match m
    case Ready(x, _, _, _) => x == id
    case Paused(x) => x == id && Resumable(from, d, id, data)
    case Cancelled => Withdrawn(from, d, id)
    case Complete(manifest) => Appeared(from, d, id, manifest.name, data)
    case _ => true
  }

  ghost predicate Recounted(from: Disk, d: Disk, id: TransferId, e: Entry, data: seq<byte>) {
    && (e.action == FileCancelled ==> Withdrawn(from, d, id))
    && (e.action == FileCompleted ==> exists name :: Appeared(from, d, id, name, data))
  }

  predicate Final(e: Entry) { e.action == FileCancelled || e.action == FileCompleted }

  /** Everything a session said and recorded is so, of the one transfer it was about. */
  ghost predicate Truthful(from: Disk, d: Disk, id: Option<TransferId>, log: seq<Entry>, sent: seq<Message>, data: seq<byte>) {
    && (forall i | 0 <= i < |sent| && About(sent[i]) :: id.Some? && Honoured(from, d, id.value, sent[i], data))
    && (forall i | 0 <= i < |log| && Final(log[i]) :: id.Some? && Recounted(from, d, id.value, log[i], data))
  }

  // -----------------------------------------------------------------------------------------------------------------
  // While the loop goes on
  // -----------------------------------------------------------------------------------------------------------------

  /** So far at most an opening has been announced. */
  predicate Announced(log: seq<Entry>, sent: seq<Message>, id: Option<TransferId>) {
    && (forall i | 0 <= i < |sent| && About(sent[i]) :: sent[i].Ready? && id == Some(sent[i].id))
    && (forall i | 0 <= i < |log| :: !Final(log[i]))
  }

  /** The directory is that of the start but for the open transfer. */
  ghost predicate Open(s: State, t: Transfer, from: Disk, peer: Key, hash: seq<byte> -> Digest) {
    && s.transfer == Some(t) && DiskInv(s.disk, hash, {}) && Owns(s.disk, t, peer)
    && s.disk.names == from.names[Part(t.id) := t.inode] && s.disk.records == from.records[t.id := Some(t.metadata)]
    && Announced(s.log, s.sent, Some(t.id))
  }

  ghost predicate Unopened(s: State, from: Disk, hash: seq<byte> -> Digest) {
    s.transfer.None? && s.disk == from && DiskInv(s.disk, hash, {}) && Announced(s.log, s.sent, None)
  }

  lemma AnnouncedIsTruthful(from: Disk, d: Disk, id: Option<TransferId>, log: seq<Entry>, sent: seq<Message>, data: seq<byte>)
    requires Announced(log, sent, id)
    ensures Truthful(from, d, id, log, sent, data)
  {
  }

  lemma OneMoreIsTruthful(from: Disk, d: Disk, id: TransferId, log: seq<Entry>, e: Entry, sent: seq<Message>, m: Message, data: seq<byte>)
    requires Announced(log, sent, Some(id)) && Recounted(from, d, id, e, data)
    ensures Truthful(from, d, Some(id), log + [e], sent, data)
    ensures Honoured(from, d, id, m, data) ==> Truthful(from, d, Some(id), log + [e], sent + [m], data)
  {
  }

  lemma CancelIsTruthful(s: State, t: Transfer, g: Rights, peer: Key, hash: seq<byte> -> Digest, from: Disk, env: Env, data: seq<byte>)
    requires Open(s, t, from, peer, hash)
    ensures var (end, flow) := HandleCancel(s, g, env);
            Truthful(from, end.disk, Some(t.id), end.log, end.sent, data)
  {
    var (disk, r) := CancelTransfer(s.disk, t, true, env.io);
    AnnouncedIsTruthful(from, disk, Some(t.id), s.log, s.sent, data);
    AnnouncedIsTruthful(from, s.disk, Some(t.id), s.log, s.sent, data);
    if r.Ok? {
      assert from.names[Part(t.id) := t.inode] - {Part(t.id)} == from.names - {Part(t.id)};
      assert from.records[t.id := Some(t.metadata)] - {t.id} == from.records - {t.id};
      OneMoreIsTruthful(from, disk, t.id, s.log, Entry(FileCancelled, Success, 0), s.sent, Cancelled, data);
    }
  }

  lemma PauseIsTruthful(s: State, t: Transfer, g: Rights, peer: Key, hash: seq<byte> -> Digest, from: Disk, env: Env)
    requires Open(s, t, from, peer, hash)
    ensures var (end, flow) := HandlePause(s, g, env);
            Truthful(from, end.disk, Some(t.id), end.log, end.sent, Content(s.disk, t.inode))
  {
    var (end, flow) := HandlePause(s, g, env);
    AnnouncedIsTruthful(from, end.disk, Some(t.id), s.log, s.sent, Content(s.disk, t.inode));
    assert from.names[Part(t.id) := t.inode] - {Part(t.id)} == from.names - {Part(t.id)};
    assert from.records[t.id := Some(t.metadata)] - {t.id} == from.records - {t.id};
    if end.sent != s.sent {
      assert PartOf(end.disk, t.id) == PartOf(s.disk, t.id) && RecordOf(end.disk, t.id) == RecordOf(s.disk, t.id);
      assert Resumable(from, end.disk, t.id, Content(s.disk, t.inode));
    }
  }

  lemma CommitIsTruthful(s: State, t: Transfer, g: Rights, peer: Key, hash: seq<byte> -> Digest, from: Disk, env: Env)
    requires Open(s, t, from, peer, hash) && Usable(s)
    ensures var (end, flow) := HandleCommit(s, g, hash, env);
            Truthful(from, end.disk, Some(t.id), end.log, end.sent, Content(s.disk, t.inode))
  {
    var (disk, r) := FinishTransfer(s.disk, t, hash, true, env.io);
    var data, name := Content(s.disk, t.inode), t.metadata.manifest.name;
    AnnouncedIsTruthful(from, disk, Some(t.id), s.log, s.sent, data);
    AnnouncedIsTruthful(from, s.disk, Some(t.id), s.log, s.sent, data);
    if r.Ok? {
      FinishAppears(s.disk, t, hash, env.io, from);
      var e := Entry(FileCompleted, Success, r.value.size);
      assert Recounted(from, disk, t.id, e, data);
      OneMoreIsTruthful(from, disk, t.id, s.log, e, s.sent, Complete(r.value), data);
    }
  }

  lemma FinishAppears(d: Disk, t: Transfer, hash: seq<byte> -> Digest, io: IoPlan, from: Disk)
    requires Opened(d, t) && PartOf(d, t.id) == Some(t.inode)
    requires d.names == from.names[Part(t.id) := t.inode] && d.records == from.records[t.id := Some(t.metadata)]
    ensures var (disk, r) := FinishTransfer(d, t, hash, true, io);
            r.Ok? ==> r.value == t.metadata.manifest && Appeared(from, disk, t.id, t.metadata.manifest.name, Content(d, t.inode))
  {
    var (disk, r) := FinishTransfer(d, t, hash, true, io);
    var name := Plain(t.metadata.manifest.name);
    if r.Ok? {
      assert disk.names == d.names[name := t.inode] - {Part(t.id)};
      assert disk.names == (from.names - {Part(t.id)})[name := t.inode];
      assert from.records[t.id := Some(t.metadata)] - {t.id} == from.records - {t.id};
    }
  }

  lemma ChunkGoesOn(s: State, t: Transfer, g: Rights, peer: Key, hash: seq<byte> -> Digest, from: Disk, m: Message, env: Env)
    returns (t': Transfer)
    requires Open(s, t, from, peer, hash) && Usable(s) && m.Chunk?
    ensures var (end, flow) := HandleChunk(s, g, hash, m.offset, m.bytes, m.checksum, env);
            if flow.Continue?
            then Open(end, t', from, peer, hash) && t'.id == t.id && Content(end.disk, t'.inode) == Content(s.disk, t.inode) + m.bytes
            else Announced(end.log, end.sent, Some(t.id))
  {
    ChunkKeeps(s.disk, hash, {}, t, peer, true, m.offset, m.bytes, m.checksum, env.io);
    t' := PutChunk(s.disk, t, hash, true, m.offset, m.bytes, m.checksum, env.io).1;
  }

  lemma OfferOpens(s: State, g: Rights, peer: Key, hash: seq<byte> -> Digest, from: Disk, manifest: Manifest, env: Env)
    returns (t: Transfer)
    requires Unopened(s, from, hash) && Usable(s)
    ensures var (end, flow) := HandleOffer(s, g, peer, hash, manifest, env);
            if flow.Continue? then Open(end, t, from, peer, hash) && Content(end.disk, t.inode) == Stored(from, t.id)
            else Announced(end.log, end.sent, None)
  {
    BeginKeeps(s.disk, hash, {}, true, peer, manifest, env.id, env.io);
    BeginOwns(s.disk, true, peer, manifest, env.id, env.io);
    var r := BeginTransfer(s.disk, true, peer, manifest, env.id, env.io).1;
    t := if r.Ok? then r.value else Transfer(env.id, 0, Metadata(1, peer, manifest), 0);
  }

  lemma ResumeOpens(s: State, g: Rights, peer: Key, hash: seq<byte> -> Digest, from: Disk, id: TransferId, env: Env)
    returns (t: Transfer)
    requires Unopened(s, from, hash) && Usable(s)
    ensures var (end, flow) := HandleResume(s, g, peer, hash, id, env);
            if flow.Continue? then Open(end, t, from, peer, hash) && Content(end.disk, t.inode) == Stored(from, t.id)
            else Announced(end.log, end.sent, None)
  {
    ResumeKeeps(s.disk, hash, {}, true, peer, id, env.io);
    var r := ResumeTransfer(s.disk, true, peer, id, env.io).1;
    t := if r.Ok? then r.value else Transfer(id, 0, Metadata(1, peer, Manifest("", 0, [])), 0);
    if r.Ok? {
      assert from.names[Part(id) := t.inode] == from.names;
      assert from.records[id := Some(t.metadata)] == from.records;
    }
  }

  // -----------------------------------------------------------------------------------------------------------------
  // One message
  // -----------------------------------------------------------------------------------------------------------------

  /** Releasing the lock on the way out makes nothing false. */
  lemma LeavingIsTruthful(s: State, from: Disk, id: Option<TransferId>, data: seq<byte>)
    requires Truthful(from, s.disk, id, s.log, s.sent, data)
    ensures var end := Leave(s); Truthful(from, end.disk, id, end.log, end.sent, data)
  {
    var end := Leave(s);
    forall x: TransferId, m: Message | Honoured(from, s.disk, x, m, data) ensures Honoured(from, end.disk, x, m, data) {
      assert PartOf(end.disk, x) == PartOf(s.disk, x) && RecordOf(end.disk, x) == RecordOf(s.disk, x);
    }
    forall x: TransferId, e: Entry | Recounted(from, s.disk, x, e, data) ensures Recounted(from, end.disk, x, e, data) {
      if e.action == FileCompleted {
        var name :| Appeared(from, s.disk, x, name, data);
        assert Appeared(from, end.disk, x, name, data);
      }
    }
  }

  lemma ClosingHandles(s: State, t: Transfer, g: Rights, peer: Key, hash: seq<byte> -> Digest, from: Disk, m: Message, env: Env)
    requires Open(s, t, from, peer, hash) && Usable(s) && Closing(m)
    ensures var (end, flow) := Handle(s, g, peer, hash, m, env);
            !flow.Continue? && Truthful(from, end.disk, Some(t.id), end.log, end.sent, Content(s.disk, t.inode))
  {
    match m
    case Pause => PauseIsTruthful(s, t, g, peer, hash, from, env);
    case Cancel => CancelIsTruthful(s, t, g, peer, hash, from, env, Content(s.disk, t.inode));
    case Commit => CommitIsTruthful(s, t, g, peer, hash, from, env);
  }

  /** Anything else but a chunk leaves the transfer as it is. */
  lemma OtherHandles(s: State, t: Transfer, g: Rights, peer: Key, hash: seq<byte> -> Digest, from: Disk, m: Message, env: Env)
    requires Open(s, t, from, peer, hash) && Usable(s) && !Closing(m) && !m.Chunk?
    ensures var (end, flow) := Handle(s, g, peer, hash, m, env);
            Announced(end.log, end.sent, Some(t.id)) && end.transfer == s.transfer && end.disk == s.disk
  {
  }

  /** With a transfer open: the loop goes on over the same transfer, or what it leaves is truthful. */
  lemma OpenHandles(s: State, t: Transfer, g: Rights, peer: Key, hash: seq<byte> -> Digest, from: Disk, m: Message, env: Env)
    returns (end: State, flow: Flow, t': Transfer)
    requires Open(s, t, from, peer, hash) && Usable(s)
    ensures (end, flow) == Handle(s, g, peer, hash, m, env)
    ensures flow.Continue? ==> !Closing(m) && Open(end, t', from, peer, hash) && t'.id == t.id
    ensures flow.Continue? ==> Content(end.disk, t'.inode) == Content(s.disk, t.inode) + if m.Chunk? then m.bytes else []
    ensures !flow.Continue? && Closing(m) ==> Truthful(from, end.disk, Some(t.id), end.log, end.sent, Content(s.disk, t.inode))
    ensures !flow.Continue? && !Closing(m) ==> Announced(end.log, end.sent, Some(t.id))
  {
    var r := Handle(s, g, peer, hash, m, env);
    end, flow, t' := r.0, r.1, t;
    if m.Chunk? {
      t' := ChunkGoesOn(s, t, g, peer, hash, from, m, env);
    } else if Closing(m) {
      ClosingHandles(s, t, g, peer, hash, from, m, env);
    } else {
      OtherHandles(s, t, g, peer, hash, from, m, env);
      assert Content(s.disk, t.inode) + [] == Content(s.disk, t.inode);
    }
  }

  lemma OpenStep(s: State, t: Transfer, g: Rights, peer: Key, hash: seq<byte> -> Digest, from: Disk, m: Message, env: Env)
    returns (end: State, flow: Flow, t': Transfer)
    requires Open(s, t, from, peer, hash) && Usable(s)
    ensures (end, flow) == Iterate(s, g, peer, hash, m, env)
    ensures flow.Continue? ==> !Closing(m) && Open(end, t', from, peer, hash) && t'.id == t.id
    ensures flow.Continue? ==> Content(end.disk, t'.inode) == Content(s.disk, t.inode) + if m.Chunk? then m.bytes else []
    ensures !flow.Continue? && Closing(m) ==> Truthful(from, end.disk, Some(t.id), end.log, end.sent, Content(s.disk, t.inode))
    ensures !flow.Continue? && !Closing(m) ==> Announced(end.log, end.sent, Some(t.id))
  {
    var counted := Counted(s, env);
    t' := t;
    if counted.operations > MAX_OPERATIONS {
      end, flow := Leave(counted), Failed(InvalidOperation);
      AnnouncedIsTruthful(from, end.disk, Some(t.id), end.log, end.sent, Content(s.disk, t.inode));
    } else {
      end, flow, t' := OpenHandles(counted, t, g, peer, hash, from, m, env);
      if !flow.Continue? {
        if Closing(m) { LeavingIsTruthful(end, from, Some(t.id), Content(s.disk, t.inode)); }
        end := Leave(end);
      }
    }
  }

  lemma OperateGoesOn(s: State, g: Rights, peer: Key, hash: seq<byte> -> Digest, inbox: seq<(Message, Env)>, end: State, flow: Flow)
    requires Usable(s) && inbox != [] && (end, flow) == Iterate(s, g, peer, hash, inbox[0].0, inbox[0].1)
    ensures Usable(end)
    ensures Operate(s, g, peer, hash, inbox) == if flow.Continue? then Operate(end, g, peer, hash, inbox[1..]) else (end, flow)
  {
    IterateKeepsUsable(s, g, peer, hash, inbox[0].0, inbox[0].1);
  }

  lemma More(content: seq<byte>, m: Message, inbox: seq<(Message, Env)>)
    requires inbox != [] && m == inbox[0].0
    ensures if Closing(m) then content + Data(inbox) == content
            else content + Data(inbox) == content + (if m.Chunk? then m.bytes else []) + Data(inbox[1..])
  {
  }

  lemma {:induction false} OpenRun(s: State, t: Transfer, g: Rights, peer: Key, hash: seq<byte> -> Digest, from: Disk,
                                   inbox: seq<(Message, Env)>)
    returns (end: State)
    requires Open(s, t, from, peer, hash) && Usable(s)
    ensures end == Operate(s, g, peer, hash, inbox).0
    ensures Truthful(from, end.disk, Some(t.id), end.log, end.sent, Content(s.disk, t.inode) + Data(inbox))
    decreases |inbox|
  {
    if inbox == [] {
      end := Leave(s);
      AnnouncedIsTruthful(from, end.disk, Some(t.id), end.log, end.sent, Content(s.disk, t.inode) + Data(inbox));
    } else {
      var m := inbox[0].0;
      var next, flow, t' := OpenStep(s, t, g, peer, hash, from, m, inbox[0].1);
      OperateGoesOn(s, g, peer, hash, inbox, next, flow);
      More(Content(s.disk, t.inode), m, inbox);
      end := next;
      if flow.Continue? {
        end := OpenRun(next, t', g, peer, hash, from, inbox[1..]);
      } else if !Closing(m) {
        AnnouncedIsTruthful(from, end.disk, Some(t.id), end.log, end.sent, Content(s.disk, t.inode) + Data(inbox));
      }
    }
  }

  // -----------------------------------------------------------------------------------------------------------------
  // Whole sessions
  // -----------------------------------------------------------------------------------------------------------------

  /** Without a transfer: the loop goes on without one, opens one, or ends having said nothing about any. */
  lemma UnopenedStep(s: State, g: Rights, peer: Key, hash: seq<byte> -> Digest, from: Disk, m: Message, env: Env)
    returns (end: State, flow: Flow, t: Option<Transfer>)
    requires Unopened(s, from, hash) && Usable(s)
    ensures (end, flow) == Iterate(s, g, peer, hash, m, env)
    ensures flow.Continue? && t.None? ==> Unopened(end, from, hash) && !Closing(m) && !m.Chunk?
    ensures flow.Continue? && t.Some? ==> Open(end, t.value, from, peer, hash) && Content(end.disk, t.value.inode) == Stored(from, t.value.id)
                                          && !Closing(m) && !m.Chunk?
    ensures !flow.Continue? ==> Announced(end.log, end.sent, None)
  {
    var counted := Counted(s, env);
    var r := Iterate(s, g, peer, hash, m, env);
    end, flow, t := r.0, r.1, None;
    if counted.operations <= MAX_OPERATIONS {
      match m
      case FileOffer(manifest) =>
        var begun := OfferOpens(counted, g, peer, hash, from, manifest, env);
        t := Some(begun);
      case Resume(id) =>
        var begun := ResumeOpens(counted, g, peer, hash, from, id, env);
        t := Some(begun);
      case _ =>
    }
  }

  /** What the session's transfer is in the end made of. */
  function Whole(from: Disk, id: Option<TransferId>, inbox: seq<(Message, Env)>): seq<byte> {
    (if id.Some? then Stored(from, id.value) else []) + Data(inbox)
  }

  lemma {:induction false} UnopenedRun(s: State, g: Rights, peer: Key, hash: seq<byte> -> Digest, from: Disk, inbox: seq<(Message, Env)>)
    returns (end: State, id: Option<TransferId>)
    requires Unopened(s, from, hash) && Usable(s)
    ensures end == Operate(s, g, peer, hash, inbox).0
    ensures Truthful(from, end.disk, id, end.log, end.sent, Whole(from, id, inbox))
    decreases |inbox|
  {
    id := None;
    if inbox == [] {
      end := Leave(s);
      AnnouncedIsTruthful(from, end.disk, id, end.log, end.sent, Whole(from, id, inbox));
    } else {
      var next, flow, t := UnopenedStep(s, g, peer, hash, from, inbox[0].0, inbox[0].1);
      OperateGoesOn(s, g, peer, hash, inbox, next, flow);
      end := next;
      if flow.Continue? {
        assert Data(inbox) == Data(inbox[1..]);
        if t.Some? {
          id := Some(t.value.id);
          end := OpenRun(next, t.value, g, peer, hash, from, inbox[1..]);
        } else {
          end, id := UnopenedRun(next, g, peer, hash, from, inbox[1..]);
        }
      } else {
        AnnouncedIsTruthful(from, end.disk, id, end.log, end.sent, Whole(from, id, inbox));
      }
    }
  }

  /**
   For every sequence of peer messages and every I/O, audit and send failure: all answers and final audit records of a served
   session are about one transfer, and so. A cancelled one has left no part and no record, and nothing else has changed. A
   paused one holds exactly what was stored before and the bytes of the session's chunks, with its record and unlocked. A
   completed one is there under its name with exactly those bytes, and its part and record are gone.
   */
  lemma AnswersAreTruthful(disk: Disk, hash: seq<byte> -> Digest, peer: Key, first: Option<Message>, accepts: bool, admin: Admin,
                           inbox: seq<(Message, Env)>)
    returns (id: Option<TransferId>)
    requires DiskInv(disk, hash, {})
    ensures var r := Serve(disk, hash, peer, first, accepts, admin, inbox);
            Truthful(disk, r.disk, id, r.log, r.sent, Whole(disk, id, inbox))
  {
    id := None;
    if first.Some? && first.value.Request? && accepts && admin.auditRequest && admin.auditDecision && admin.sendDecision {
      var mode := first.value.mode;
      var end, flow := Converse(disk, hash, peer, mode, admin.desktopOk, inbox).0, Converse(disk, hash, peer, mode, admin.desktopOk, inbox).1;
      if !IsDesktop(mode) { end, id := UnopenedRun(State(disk, None, 0, [], []), ModeRights(mode), peer, hash, disk, inbox); }
      FramedIsTruthful(disk, end, id, Whole(disk, id, inbox), ModePermissions(mode), flow);
    }
  }

  lemma FramedIsTruthful(from: Disk, end: State, id: Option<TransferId>, data: seq<byte>, granted: Profile, flow: Flow)
    requires Truthful(from, end.disk, id, end.log, end.sent, data)
    ensures var body, sent := [REQUESTED, ACCEPTED] + end.log, [Accepted(granted)] + end.sent;
            Truthful(from, end.disk, id, body, sent, data) && Truthful(from, end.disk, id, body + [Disconnected(flow)], sent, data)
  {
    var body, sent := [REQUESTED, ACCEPTED] + end.log, [Accepted(granted)] + end.sent;
    assert forall i | 2 <= i < |body| :: body[i] == end.log[i - 2];
    assert forall i | 1 <= i < |sent| :: sent[i] == end.sent[i - 1];
  }

  // -----------------------------------------------------------------------------------------------------------------
  // When a request is granted
  // -----------------------------------------------------------------------------------------------------------------

  predicate Brief(text: string) { Utf8Length(text) <= MAX_CHAT_BYTES }

  /** The part of a transfer that can be continued: recorded for this peer, no longer than announced, and not being written. */
  predicate CanContinue(d: Disk, peer: Key, id: TransferId) {
    && RecordOf(d, id).Some? && PartOf(d, id).Some? && PartOf(d, id).value in d.files && PartOf(d, id).value !in d.locked
    && var r := RecordOf(d, id).value;
       && r.version == 1 && r.owner == peer && ValidName(r.manifest.name) && r.manifest.size <= DEFAULT_RECEIVE_LIMIT
       && |Stored(d, id)| <= r.manifest.size
  }

  /** The transfer takes this chunk: it begins where the part ends, is neither empty nor too long, and has its own hash. */
  predicate Continues(t: Transfer, hash: seq<byte> -> Digest, offset: nat, bytes: seq<byte>, checksum: Digest) {
    offset == t.offset && 0 < |bytes| <= CHUNK_SIZE && offset + |bytes| <= t.metadata.manifest.size && checksum == hash(bytes)
  }

  /** The transfer is whole, and its name still free. */
  predicate CanFinish(d: Disk, t: Transfer, hash: seq<byte> -> Digest) {
    && |Stored(d, t.id)| == t.metadata.manifest.size && hash(Stored(d, t.id)) == t.metadata.manifest.sha256
    && Plain(t.metadata.manifest.name) !in d.names
  }

  /** A request is permitted, fits the state of the transfer and of the directory, and nothing fails that it needs. */
  predicate Grants(s: State, g: Rights, peer: Key, hash: seq<byte> -> Digest, m: Message, env: Env) {
    match m
    case Close => true
    case ChatText(text) => g.chat && Brief(text) && (env.reply.Some? ==> Brief(env.reply.value)) && env.sendOk
    case FileOffer(manifest) =>
      && g.files && s.transfer.None? && ValidName(manifest.name) && manifest.size <= DEFAULT_RECEIVE_LIMIT
      && Plain(manifest.name) !in s.disk.names && Part(env.id) !in s.disk.names && env.id !in s.disk.records
      && env.io.failing > 7 && env.auditOk && env.sendOk
    case Resume(id) =>
      g.files && s.transfer.None? && CanContinue(s.disk, peer, id) && env.io.failing !in {0, 1, 2, 3, 4, 7} && env.sendOk
    case Chunk(offset, bytes, checksum) =>
      g.files && s.transfer.Some? && Continues(s.transfer.value, hash, offset, bytes, checksum) && env.io.failing > 0 && env.sendOk
    case Commit => g.files && s.transfer.Some? && CanFinish(s.disk, s.transfer.value, hash) && env.io.failing > 4 && env.auditOk && env.sendOk
    case Pause => g.files && s.transfer.Some? && env.io.failing > 0 && env.sendOk
    case Cancel => g.files && s.transfer.Some? && env.io.failing > 1 && env.auditOk && env.sendOk
    case _ => false
  }

  /** What a granted request is answered with. */
  function Answer(s: State, peer: Key, hash: seq<byte> -> Digest, m: Message, env: Env): seq<Message> {
    match m
    case ChatText(_) => [if env.reply.Some? then ChatText(env.reply.value) else Close]
    case FileOffer(manifest) => [Ready(env.id, 0, hash([]), manifest)]
    case Resume(id) =>
      if RecordOf(s.disk, id).None? then []
      else [Ready(id, |Stored(s.disk, id)|, hash(Stored(s.disk, id)), RecordOf(s.disk, id).value.manifest)]
    case Chunk(offset, bytes, _) => [Progress(offset + |bytes|)]
    case Commit => if s.transfer.None? then [] else [Complete(s.transfer.value.metadata.manifest)]
    case Pause => if s.transfer.None? then [] else [Paused(s.transfer.value.id)]
    case Cancel => [Cancelled]
    case _ => []
  }

  /** What a granted request leaves in the audit trail; one that fails late may have left it already. */
  function Records(s: State, m: Message): seq<Entry> {
    match m
    case FileOffer(manifest) => [Entry(FileOffered, Success, manifest.size)]
    case Commit => if s.transfer.None? then [] else [Entry(FileCompleted, Success, s.transfer.value.metadata.manifest.size)]
    case Cancel => [Entry(FileCancelled, Success, 0)]
    case _ => []
  }

  ghost predicate AnsweredAs(s: State, r: (State, Flow), grants: bool, answer: seq<Message>, records: seq<Entry>) {
    && (!r.1.Failed? <==> grants) && r.0.sent == s.sent + (if grants then answer else [])
    && (r.0.log == s.log + records || (!grants && r.0.log == s.log))
  }

  ghost predicate Standing(s: State, peer: Key) { Usable(s) && (s.transfer.Some? ==> Owns(s.disk, s.transfer.value, peer)) }

  lemma OfferIsAnswered(s: State, g: Rights, peer: Key, hash: seq<byte> -> Digest, m: Message, env: Env)
    requires Standing(s, peer) && m.FileOffer?
    ensures AnsweredAs(s, HandleOffer(s, g, peer, hash, m.manifest, env), Grants(s, g, peer, hash, m, env), Answer(s, peer, hash, m, env), Records(s, m))
  {
    assert s.sent + [] == s.sent && s.log + [] == s.log;
  }

  lemma ResumeIsAnswered(s: State, g: Rights, peer: Key, hash: seq<byte> -> Digest, m: Message, env: Env)
    requires Standing(s, peer) && m.Resume?
    ensures AnsweredAs(s, HandleResume(s, g, peer, hash, m.id, env), Grants(s, g, peer, hash, m, env), Answer(s, peer, hash, m, env), Records(s, m))
  {
    assert s.sent + [] == s.sent && s.log + [] == s.log;
    assert RecordOf(s.disk, m.id).Some? <==> m.id in s.disk.records && s.disk.records[m.id].Some?;
  }

  lemma ChunkIsAnswered(s: State, g: Rights, peer: Key, hash: seq<byte> -> Digest, m: Message, env: Env)
    requires Standing(s, peer) && m.Chunk?
    ensures AnsweredAs(s, HandleChunk(s, g, hash, m.offset, m.bytes, m.checksum, env), Grants(s, g, peer, hash, m, env), Answer(s, peer, hash, m, env), Records(s, m))
  {
    assert s.sent + [] == s.sent && s.log + [] == s.log;
  }

  lemma CommitIsAnswered(s: State, g: Rights, peer: Key, hash: seq<byte> -> Digest, m: Message, env: Env)
    requires Standing(s, peer) && m.Commit?
    ensures AnsweredAs(s, HandleCommit(s, g, hash, env), Grants(s, g, peer, hash, m, env), Answer(s, peer, hash, m, env), Records(s, m))
  {
    assert s.sent + [] == s.sent && s.log + [] == s.log;
    if s.transfer.Some? { OwnedIsThere(s.disk, s.transfer.value, peer); }
  }

  lemma OwnedIsThere(d: Disk, t: Transfer, peer: Key)
    requires Owns(d, t, peer)
    ensures Part(t.id) in d.names && t.id in d.records && Stored(d, t.id) == d.files[t.inode]
  {
    assert PartOf(d, t.id).Some? && RecordOf(d, t.id).Some?;
  }

  lemma ClosingIsAnswered(s: State, g: Rights, peer: Key, hash: seq<byte> -> Digest, m: Message, env: Env)
    requires Standing(s, peer) && (m.Pause? || m.Cancel?)
    ensures AnsweredAs(s, if m.Pause? then HandlePause(s, g, env) else HandleCancel(s, g, env),
                       Grants(s, g, peer, hash, m, env), Answer(s, peer, hash, m, env), Records(s, m))
  {
    assert s.sent + [] == s.sent && s.log + [] == s.log;
    if s.transfer.Some? { OwnedIsThere(s.disk, s.transfer.value, peer); }
  }

  lemma HandledIsAnswered(s: State, g: Rights, peer: Key, hash: seq<byte> -> Digest, m: Message, env: Env)
    requires Standing(s, peer)
    ensures AnsweredAs(s, Handle(s, g, peer, hash, m, env), Grants(s, g, peer, hash, m, env), Answer(s, peer, hash, m, env), Records(s, m))
  {
    match m
    case FileOffer(_) => OfferIsAnswered(s, g, peer, hash, m, env);
    case Resume(_) => ResumeIsAnswered(s, g, peer, hash, m, env);
    case Chunk(_, _, _) => ChunkIsAnswered(s, g, peer, hash, m, env);
    case Commit => CommitIsAnswered(s, g, peer, hash, m, env);
    case Pause => ClosingIsAnswered(s, g, peer, hash, m, env);
    case Cancel => ClosingIsAnswered(s, g, peer, hash, m, env);
    case _ => assert s.sent + [] == s.sent && s.log + [] == s.log;
  }

  predicate BelowFloodBound(s: State, env: Env) { env.windowElapsed || s.operations < MAX_OPERATIONS }

  /** Counting a message changes nothing about it, nor does leaving the loop. */
  lemma CountingIsNeutral(s: State, g: Rights, peer: Key, hash: seq<byte> -> Digest, m: Message, env: Env)
    ensures Grants(Counted(s, env), g, peer, hash, m, env) == Grants(s, g, peer, hash, m, env)
    ensures Answer(Counted(s, env), peer, hash, m, env) == Answer(s, peer, hash, m, env)
  {
  }

  lemma SettlingIsNeutral(s: State, counted: State, r: (State, Flow), grants: bool, answer: seq<Message>, records: seq<Entry>)
    requires AnsweredAs(counted, r, grants, answer, records) && counted.sent == s.sent && counted.log == s.log
    ensures AnsweredAs(s, Settle(r), grants, answer, records)
  {
  }

  /** Every message ends the session with an error, unanswered, unless it is granted, and then it gets its own answer. */
  lemma AnsweredIffGranted(s: State, g: Rights, peer: Key, hash: seq<byte> -> Digest, m: Message, env: Env)
    requires Standing(s, peer)
    ensures var (end, flow) := Iterate(s, g, peer, hash, m, env);
            AnsweredAs(s, (end, flow), BelowFloodBound(s, env) && Grants(s, g, peer, hash, m, env), Answer(s, peer, hash, m, env), Records(s, m))
  {
    var counted, grants, answer := Counted(s, env), Grants(s, g, peer, hash, m, env), Answer(s, peer, hash, m, env);
    CountingIsNeutral(s, g, peer, hash, m, env);
    if BelowFloodBound(s, env) {
      HandledIsAnswered(counted, g, peer, hash, m, env);
      SettlingIsNeutral(s, counted, Handle(counted, g, peer, hash, m, env), grants, answer, Records(s, m));
    } else {
      assert s.sent + [] == s.sent && s.log + [] == s.log;
      SettlingIsNeutral(s, counted, (counted, Failed(InvalidOperation)), false, answer, Records(s, m));
    }
  }
}
