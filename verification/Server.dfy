/** The served session as it runs: a loop over received messages that updates the directory, the trail and the wire. */
module Server {
  import opened Wrappers
  import opened Names
  import opened Files
  import opened P = Permissions
  import opened Endpoint
  import opened SessionTrace
  import Receiver

  /** One end of a session: what it has recorded and sent so far. */
  class Session {
    const directory: Receiver.Directory
    const hash: seq<byte> -> Digest
    const peer: Key
    const pieces: nat -> nat
    var incoming: Receiver.IncomingTransfer?
    var operations: nat
    var log: seq<Entry>
    var sent: seq<Message>

    ghost function Value(): State reads this, directory, incoming {
      State(directory.disk, if incoming == null then None else Some(incoming.Value()), operations, log, sent)
    }

    ghost predicate Valid() reads this, directory, incoming {
      Structured(directory.disk) && (incoming != null ==> incoming.directory == directory && incoming.Valid())
    }

    constructor (directory: Receiver.Directory, hash: seq<byte> -> Digest, peer: Key, pieces: nat -> nat)
      requires Structured(directory.disk)
      ensures Valid() && Value() == State(directory.disk, None, 0, [], [])
      ensures this.directory == directory && this.hash == hash && this.peer == peer && incoming == null
    {
      this.directory, this.hash, this.peer, this.pieces := directory, hash, peer, pieces;
      incoming, operations, log, sent := null, 0, [], [];
    }

    method SendMessage(m: Message, ok: bool)
      modifies this`sent
      ensures sent == if ok then old(sent) + [m] else old(sent)
    {
      if ok { sent := sent + [m]; }
    }

    method OnChat(consent: Consent, text: string, env: Env) returns (flow: Flow)
      requires Valid()
      modifies this`sent
      ensures Valid() && (Value(), flow) == HandleChat(old(Value()), RightsOf(consent.Value()), text, env)
    {
      var permitted := consent.Require(Chat);
      if permitted.Err? { return Failed(NotPermitted); }
      if Utf8Length(text) > MAX_CHAT_BYTES { return Failed(InvalidOperation); }
      match env.reply {
        case None =>
          SendMessage(Close, env.sendOk);
          return if env.sendOk then Done else Failed(ConnectionFailed);
        case Some(reply) =>
          if Utf8Length(reply) > MAX_CHAT_BYTES { return Failed(InvalidOperation); }
          SendMessage(ChatText(reply), env.sendOk);
          return if env.sendOk then Continue else Failed(ConnectionFailed);
      }
    }

    /** Keep the opened transfer and tell the peer where it stands. */
    method Announce(t: Transfer, env: Env) returns (flow: Flow)
      requires Valid() && incoming == null && Opened(directory.disk, t)
      modifies this`incoming, this`sent
      ensures Valid() && (incoming != null ==> fresh(incoming))
      ensures (Value(), flow) == Endpoint.Announce(old(Value()), t, hash, env)
    {
      var transfer := new Receiver.IncomingTransfer(directory, t);
      incoming := transfer;
      if env.io.failing == 7 { return Failed(FileFailed(Io)); }
      var digest := transfer.PrefixHash(hash, pieces);
      SendMessage(Ready(t.id, t.offset, digest, t.metadata.manifest), env.sendOk);
      flow := if env.sendOk then Continue else Failed(ConnectionFailed);
    }

    method OnOffer(consent: Consent, manifest: Manifest, env: Env) returns (flow: Flow)
      requires Valid()
      modifies this, directory
      ensures Valid() && (incoming != old(incoming) && incoming != null ==> fresh(incoming))
      ensures (Value(), flow) == HandleOffer(old(Value()), RightsOf(old(consent.Value())), peer, hash, manifest, env)
    {
      var permitted := consent.Require(FileManager);
      if permitted.Err? { return Failed(NotPermitted); }
      if incoming != null || manifest.size > DEFAULT_RECEIVE_LIMIT { return Failed(InvalidOperation); }
      if !env.auditOk { return Failed(AuditFailed); }
      log := log + [Entry(FileOffered, Success, manifest.size)];
      BeginIsUsable(directory.disk, peer, manifest, env.id, env.io);
      var r := Receiver.Begin(directory, consent, peer, manifest, env.id, env.io);
      if r.Err? { return Failed(FileFailed(r.error)); }
      flow := Announce(r.value, env);
    }

    method OnResume(consent: Consent, id: TransferId, env: Env) returns (flow: Flow)
      requires Valid()
      modifies this, directory
      ensures Valid() && (incoming != old(incoming) && incoming != null ==> fresh(incoming))
      ensures (Value(), flow) == HandleResume(old(Value()), RightsOf(old(consent.Value())), peer, hash, id, env)
    {
      var permitted := consent.Require(FileManager);
      if permitted.Err? { return Failed(NotPermitted); }
      if incoming != null { return Failed(InvalidOperation); }
      var r := Receiver.Resume(directory, consent, peer, id, env.io);
      if r.Err? { return Failed(FileFailed(r.error)); }
      if r.value.metadata.manifest.size > DEFAULT_RECEIVE_LIMIT {
        incoming := new Receiver.IncomingTransfer(directory, r.value);
        return Failed(InvalidOperation);
      }
      flow := Announce(r.value, env);
    }

    method OnChunk(consent: Consent, offset: nat, bytes: seq<byte>, checksum: Digest, env: Env) returns (flow: Flow)
      requires Valid()
      modifies this`sent, directory, incoming
      ensures Valid() && incoming == old(incoming)
      ensures (Value(), flow) == HandleChunk(old(Value()), RightsOf(old(consent.Value())), hash, offset, bytes, checksum, env)
    {
      var permitted := consent.Require(FileManager);
      if permitted.Err? { return Failed(NotPermitted); }
      if incoming == null { return Failed(InvalidOperation); }
      var r := incoming.WriteChunk(consent, hash, offset, bytes, checksum, env.io);
      if r.Err? { return Failed(FileFailed(r.error)); }
      SendMessage(Progress(incoming.offset), env.sendOk);
      flow := if env.sendOk then Continue else Failed(ConnectionFailed);
    }

    method OnCommit(consent: Consent, env: Env) returns (flow: Flow)
      requires Valid()
      modifies this, directory, incoming
      ensures Valid() && (incoming == null || incoming == old(incoming))
      ensures (Value(), flow) == HandleCommit(old(Value()), RightsOf(old(consent.Value())), hash, env)
    {
      var permitted := consent.Require(FileManager);
      if permitted.Err? { return Failed(NotPermitted); }
      if incoming == null { return Failed(InvalidOperation); }
      FinishIsUsable(directory.disk, incoming.Value(), hash, env.io);
      var r := incoming.Finish(consent, hash, pieces, env.io);
      incoming := null;
      if r.Err? { return Failed(FileFailed(r.error)); }
      if !env.auditOk { return Failed(AuditFailed); }
      log := log + [Entry(FileCompleted, Success, r.value.size)];
      SendMessage(Complete(r.value), env.sendOk);
      flow := if env.sendOk then Done else Failed(ConnectionFailed);
    }

    method OnPause(consent: Consent, env: Env) returns (flow: Flow)
      requires Valid()
      modifies this, directory, incoming
      ensures Valid() && (incoming == null || incoming == old(incoming))
      ensures (Value(), flow) == HandlePause(old(Value()), RightsOf(old(consent.Value())), env)
    {
      var permitted := consent.Require(FileManager);
      if permitted.Err? { return Failed(NotPermitted); }
      if incoming == null { return Failed(InvalidOperation); }
      var r := incoming.Pause(env.io.failing == 0);
      incoming := null;
      if r.Err? { return Failed(FileFailed(r.error)); }
      SendMessage(Paused(r.value), env.sendOk);
      flow := if env.sendOk then Done else Failed(ConnectionFailed);
    }

    method OnCancel(consent: Consent, env: Env) returns (flow: Flow)
      requires Valid()
      modifies this, directory, incoming
      ensures Valid() && (incoming == null || incoming == old(incoming))
      ensures (Value(), flow) == HandleCancel(old(Value()), RightsOf(old(consent.Value())), env)
    {
      var permitted := consent.Require(FileManager);
      if permitted.Err? { return Failed(NotPermitted); }
      if incoming == null { return Failed(InvalidOperation); }
      CancelIsUsable(directory.disk, incoming.Value(), env.io);
      var r := incoming.Cancel(consent, env.io);
      incoming := null;
      if r.Err? { return Failed(FileFailed(r.error)); }
      if !env.auditOk { return Failed(AuditFailed); }
      log := log + [Entry(FileCancelled, Success, 0)];
      SendMessage(Cancelled, env.sendOk);
      flow := if env.sendOk then Done else Failed(ConnectionFailed);
    }

    method Dispatch(consent: Consent, m: Message, env: Env) returns (flow: Flow)
      requires Valid()
      modifies this, directory, incoming
      ensures Valid() && (incoming != old(incoming) && incoming != null ==> fresh(incoming))
      ensures (Value(), flow) == Handle(old(Value()), RightsOf(old(consent.Value())), peer, hash, m, env)
    {
      match m {
        case Close => flow := Done;
        case ChatText(text) => flow := OnChat(consent, text, env);
        case FileOffer(manifest) => flow := OnOffer(consent, manifest, env);
        case Resume(id) => flow := OnResume(consent, id, env);
        case Chunk(offset, bytes, checksum) => flow := OnChunk(consent, offset, bytes, checksum, env);
        case Commit => flow := OnCommit(consent, env);
        case Pause => flow := OnPause(consent, env);
        case Cancel => flow := OnCancel(consent, env);
        case _ => flow := Failed(InvalidOperation);
      }
    }

    method DropIncoming()
      requires Valid()
      modifies this`incoming, directory
      ensures Valid() && incoming == null && Value() == Leave(old(Value()))
    {
      if incoming != null {
        directory.Drop(incoming.inode);
        incoming := null;
      }
    }

    method Count(env: Env)
      requires Valid()
      modifies this`operations
      ensures Valid() && Value() == Counted(old(Value()), env)
    {
      if env.windowElapsed { operations := 0; }
      operations := operations + 1;
    }

    /** Handle a message unless the flood bound is reached. */
    method Admit(consent: Consent, m: Message, env: Env) returns (flow: Flow)
      requires Valid()
      modifies this, directory, incoming
      ensures Valid() && (incoming != old(incoming) && incoming != null ==> fresh(incoming))
      ensures (Value(), flow) == Endpoint.Admit(old(Value()), RightsOf(old(consent.Value())), peer, hash, m, env)
    {
      Count(env);
      if operations > MAX_OPERATIONS {
        flow := Failed(InvalidOperation);
      } else {
        flow := Dispatch(consent, m, env);
      }
    }

    method Step(consent: Consent, m: Message, env: Env) returns (flow: Flow)
      requires Valid()
      modifies this, directory, incoming
      ensures Valid() && (incoming != old(incoming) && incoming != null ==> fresh(incoming))
      ensures (Value(), flow) == Iterate(old(Value()), RightsOf(old(consent.Value())), peer, hash, m, env)
    {
      flow := Admit(consent, m, env);
      if !flow.Continue? { DropIncoming(); }
    }

    /** Receive and handle until the peer closes, an operation fails or the connection does. */
    method Run(consent: Consent, inbox: seq<(Message, Env)>) returns (flow: Flow)
      requires Valid()
      modifies this, directory, incoming
      ensures Valid()
      ensures (Value(), flow) == Operate(old(Value()), RightsOf(old(consent.Value())), peer, hash, inbox)
    {
      var i := 0;
      flow := Continue;
      ghost var g, start := RightsOf(consent.Value()), Value();
      ghost var end := Operate(start, g, peer, hash, inbox);
      while i < |inbox| && flow.Continue?
        invariant 0 <= i <= |inbox|
        invariant Valid() && RightsOf(consent.Value()) == g
        invariant incoming == old(incoming) || incoming == null || fresh(incoming)
        invariant end == if flow.Continue? then Operate(Value(), g, peer, hash, inbox[i..]) else (Value(), flow)
      {
        assert inbox[i..][0] == inbox[i] && inbox[i..][1..] == inbox[i + 1..];
        flow := Step(consent, inbox[i].0, inbox[i].1);
        i := i + 1;
      }
      if flow.Continue? {
        assert inbox[i..] == [];
        DropIncoming();
        flow := Failed(ConnectionFailed);
      }
    }
  }

  /** The acceptance of one authenticated connection: request, decision, session, disconnection. */
  method Serve(directory: Receiver.Directory, hash: seq<byte> -> Digest, peer: Key, first: Option<Message>, accepts: bool,
               admin: Admin, inbox: seq<(Message, Env)>, pieces: nat -> nat)
    returns (log: seq<Entry>, sent: seq<Message>, flow: Flow)
    requires Structured(directory.disk)
    modifies directory
    ensures Served(directory.disk, log, sent, flow) == SessionTrace.Serve(old(directory.disk), hash, peer, first, accepts, admin, inbox)
  {
    log, sent := [], [];
    if first.None? { return log, sent, Failed(ConnectionFailed); }
    if !first.value.Request? { return log, sent, Failed(InvalidOperation); }
    var mode := first.value.mode;
    if !admin.auditRequest { return log, sent, Failed(AuditFailed); }
    log := [REQUESTED];
    var consent := Decided(mode, accepts);
    if !accepts {
      if !admin.auditDecision { return log, sent, Failed(AuditFailed); }
      log := log + [REJECTED];
      assert log == [REQUESTED, REJECTED];
      if !admin.sendDecision { return log, sent, Failed(ConnectionFailed); }
      return log, [Message.Rejected], Done;
    }
    if !admin.auditDecision { return log, sent, Failed(AuditFailed); }
    log := log + [ACCEPTED];
    assert log == [REQUESTED, ACCEPTED];
    if !admin.sendDecision { return log, sent, Failed(ConnectionFailed); }
    sent := [Accepted(consent.granted)];
    var trail, replies;
    trail, replies, flow := ServeAccepted(directory, consent, hash, peer, mode, admin.desktopOk, inbox, pieces);
    log, sent := log + trail, sent + replies;
    if !admin.auditEnd { return log, sent, Failed(AuditFailed); }
    log := log + [Disconnected(flow)];
  }

  /** The local user's decision: everything the mode asks for and no more, or nothing at all. */
  method Decided(mode: Mode, accepts: bool) returns (consent: Consent)
    ensures fresh(consent)
    ensures consent.Value() == if accepts then Grant(ModePermissions(mode), ModePermissions(mode), Active)
                               else Grant(ModePermissions(mode), NONE, Stage.Rejected)
  {
    consent := new Consent(ModePermissions(mode));
    if accepts {
      WholeProfileIsContained(ModePermissions(mode));
      var _ := consent.Accept(ModePermissions(mode));
    } else {
      var _ := consent.Reject();
    }
  }

  method ServeAccepted(directory: Receiver.Directory, consent: Consent, hash: seq<byte> -> Digest, peer: Key, mode: Mode,
                       desktopOk: bool, inbox: seq<(Message, Env)>, pieces: nat -> nat)
    returns (trail: seq<Entry>, replies: seq<Message>, flow: Flow)
    requires Structured(directory.disk) && consent.Value() == Grant(ModePermissions(mode), ModePermissions(mode), Active)
    modifies directory, consent
    ensures consent.stage == Closed
    ensures var (end, f) := Converse(old(directory.disk), hash, peer, mode, desktopOk, inbox);
            directory.disk == end.disk && trail == end.log && replies == end.sent && flow == f
  {
    if IsDesktop(mode) {
      trail, replies, flow := [], [], if desktopOk then Done else Failed(DesktopFailed);
    } else {
      var session := new Session(directory, hash, peer, pieces);
      flow := session.Run(consent, inbox);
      trail, replies := session.log, session.sent;
    }
    consent.Close();
  }

  lemma WholeProfileIsContained(a: Profile)
    ensures IsSubsetOf(a, a)
  {
  }
}
