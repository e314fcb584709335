/** The rendezvous directory: registrations, presence and pairing, as the atomic steps of many connection threads. */
module Rendezvous {
  import opened Wrappers

  type Id = nat
  type PublicKey = nat

  /** The all-zero key, which as an expectation accepts any key. */
  const ANY_KEY: PublicKey := 0
  const PRESENCE_TTL := 90

  datatype Entry = Entry(key: PublicKey, busy: bool, connection: nat, seen: nat)

  type Devices = map<Id, Entry>

  datatype DirectoryError = DifferentKey | Offline | Busy | WrongKey

  function Fresh(e: Entry, now: nat): bool { now < e.seen + PRESENCE_TTL }

  // -----------------------------------------------------------------------------------------------------------------
  // What happens under one lock
  // -----------------------------------------------------------------------------------------------------------------

  function InsertStep(d: Devices, id: Id, key: PublicKey, connection: nat, now: nat): Result<Devices, DirectoryError> {
    if id in d && d[id].key != key then Err(DifferentKey) else Ok(d[id := Entry(key, false, connection, now)])
  }

  function TouchStep(d: Devices, id: Id, connection: nat, now: nat): Devices {
    if id in d && d[id].connection == connection then d[id := d[id].(seen := now)] else d
  }

  function RemoveStep(d: Devices, id: Id, connection: nat): Devices {
    if id in d && d[id].connection == connection then d - {id} else d
  }

  function ExpireStep(d: Devices, now: nat): Devices {
    map id | id in d && Fresh(d[id], now) :: d[id]
  }

  function PresenceExpired(d: Devices, id: Id, connection: nat, now: nat): bool {
    id !in d || d[id].connection != connection || !Fresh(d[id], now)
  }

  /** Marks the target busy and tells which connection it is. */
  function FindStep(d: Devices, id: Id, expected: PublicKey): Result<(Devices, nat), DirectoryError> {
    if id !in d then Err(Offline)
    else if d[id].busy then Err(Busy)
    else if expected != d[id].key && expected != ANY_KEY then Err(WrongKey)
    else Ok((d[id := d[id].(busy := true)], d[id].connection))
  }

  class Directory {
    var devices: Devices

    constructor ()
      ensures devices == map[]
    {
      devices := map[];
    }

    method Insert(id: Id, key: PublicKey, connection: nat, now: nat) returns (r: Result<(), DirectoryError>)
      modifies this
      ensures r.Ok? <==> InsertStep(old(devices), id, key, connection, now).Ok?
      ensures r.Ok? ==> devices == InsertStep(old(devices), id, key, connection, now).value
      ensures r.Err? ==> devices == old(devices) && InsertStep(devices, id, key, connection, now) == Err(r.error)
      ensures r.Ok? <==> id !in old(devices) || old(devices)[id].key == key
      ensures r.Ok? ==> id in devices && devices[id] == Entry(key, false, connection, now) && Fresh(devices[id], now)
      ensures devices.Keys == old(devices).Keys + if r.Ok? then {id} else {}
      ensures forall other | other in old(devices) && other != id :: devices[other] == old(devices)[other]
    {
      if id in devices && devices[id].key != key { return Err(DifferentKey); }
      devices := devices[id := Entry(key, false, connection, now)];
      return Ok(());
    }

    method Touch(id: Id, connection: nat, now: nat)
      modifies this
      ensures devices == TouchStep(old(devices), id, connection, now)
      ensures devices.Keys == old(devices).Keys
      ensures forall other | other in devices && (other != id || old(devices)[other].connection != connection) ::
                devices[other] == old(devices)[other]
      ensures id in devices && devices[id].connection == connection ==>
                Fresh(devices[id], now) && devices[id].key == old(devices)[id].key && devices[id].busy == old(devices)[id].busy
    {
      if id in devices && devices[id].connection == connection { devices := devices[id := devices[id].(seen := now)]; }
    }

    method Remove(id: Id, connection: nat)
      modifies this
      ensures devices == RemoveStep(old(devices), id, connection)
      ensures forall other | other in old(devices) && old(devices)[other].connection != connection ::
                other in devices && devices[other] == old(devices)[other]
    {
      if id in devices && devices[id].connection == connection { devices := devices - {id}; }
    }

    method Expire(now: nat)
      modifies this
      ensures devices == ExpireStep(old(devices), now)
      ensures forall id | id in devices :: id in old(devices) && devices[id] == old(devices)[id] && Fresh(devices[id], now)
      ensures forall id | id in old(devices) && Fresh(old(devices)[id], now) :: id in devices
    {
      devices := map id | id in devices && Fresh(devices[id], now) :: devices[id];
    }

    method Find(id: Id, expected: PublicKey) returns (r: Result<nat, DirectoryError>)
      modifies this
      ensures r.Ok? ==> FindStep(old(devices), id, expected) == Ok((devices, r.value))
      ensures r.Err? ==> devices == old(devices) && FindStep(devices, id, expected) == Err(r.error)
      ensures r.Ok? <==> id in old(devices) && !old(devices)[id].busy && (expected == old(devices)[id].key || expected == ANY_KEY)
      ensures r.Ok? ==> r.value == old(devices)[id].connection && devices[id] == old(devices)[id].(busy := true)
      ensures devices.Keys == old(devices).Keys
      ensures forall other | other in devices && other != id :: devices[other] == old(devices)[other]
    {
      if id !in devices { return Err(Offline); }
      var entry := devices[id];
      if entry.busy { return Err(Busy); }
      if expected != entry.key && expected != ANY_KEY { return Err(WrongKey); }
      devices := devices[id := entry.(busy := true)];
      return Ok(entry.connection);
    }
  }

  // -----------------------------------------------------------------------------------------------------------------
  // Threads
  // -----------------------------------------------------------------------------------------------------------------

  /** What a connection proved at registration. */
  datatype Identity = Identity(id: Id, key: PublicKey, listen: bool)

  datatype Offer = Offer(from: nat, initiator: Identity, target: Id, expected: PublicKey)

  /** Where a connection's thread is between two atomic steps. */
  datatype Stage =
    | Verified
    | Announcing
    | Serving(seen: nat)
    | Expiring(seen: nat, target: Id, expected: PublicKey)
    | Looking(seen: nat, target: Id, expected: PublicKey)
    | Granted(to: nat, target: Id, expected: PublicKey)
    | Relaying(offer: Offer)
    | Leaving
    | Gone

  datatype Thread = Thread(who: Identity, stage: Stage, channel: seq<Offer>)

  /** `grants` tells which connection was granted to whom; `offers` are all offers ever delivered, with their receivers. */
  datatype State = State(devices: Devices, threads: map<nat, Thread>, now: nat, grants: map<nat, nat>, offers: seq<(nat, Offer)>)

  const START := State(map[], map[], 0, map[], [])

  datatype Event =
    | Arrive(connection: nat, who: Identity)
    | Tick(seconds: nat)
    | OtherExpires
    | Step(connection: nat, move: Move)

  /** What the outside decides in one step of a thread; a move that does not fit the thread's stage changes nothing. */
  datatype Move =
    | Proceed(fails: bool)
    | TakeOffer
    | Heartbeat(authentic: bool)
    | Connect(target: Id, expected: PublicKey, authentic: bool)
    | CheckPresence
    | Quit

  /** The receiving end of a registration's channel lives as long as its thread serves or relays. */
  predicate Receives(stage: Stage) { !stage.Verified? && !stage.Leaving? && !stage.Gone? }

  function At(s: State, c: nat, stage: Stage): State
    requires c in s.threads
  {
    s.(threads := s.threads[c := s.threads[c].(stage := stage)])
  }

  function Register(s: State, c: nat): State
    requires c in s.threads
  {
    var who := s.threads[c].who;
    if !who.listen then At(s, c, Announcing)
    else
      var inserted := InsertStep(s.devices, who.id, who.key, c, s.now);
      if inserted.Err? then At(s, c, Gone) else At(s, c, Announcing).(devices := inserted.value)
  }

  function Serve(s: State, c: nat, seen: nat, move: Move): State
    requires c in s.threads
  {
    var who := s.threads[c].who;
    match move
    case TakeOffer =>
      if s.threads[c].channel == [] then s
      else
        var offer := s.threads[c].channel[0];
        s.(threads := s.threads[c := Thread(who, Relaying(offer), s.threads[c].channel[1..])])
    case Heartbeat(authentic) =>
      if !authentic then s else At(s, c, Serving(s.now)).(devices := TouchStep(s.devices, who.id, c, s.now))
    case Connect(target, expected, authentic) =>
      if who.listen || !authentic then s
      else
        var touched := s.(devices := TouchStep(s.devices, who.id, c, s.now));
        if target == who.id then touched else At(touched, c, Expiring(seen, target, expected))
    case CheckPresence =>
      if s.now > seen + PRESENCE_TTL || (who.listen && PresenceExpired(s.devices, who.id, c, s.now)) then At(s, c, Leaving) else s
    case Quit => At(s, c, Leaving)
    case Proceed(_) => s
  }

  function Look(s: State, c: nat, seen: nat, target: Id, expected: PublicKey): State
    requires c in s.threads
  {
    var found := FindStep(s.devices, target, expected);
    if found.Err? then At(s, c, Serving(seen))
    else
      var (devices, to) := found.value;
      At(s, c, Granted(to, target, expected)).(devices := devices, grants := s.grants[to := c])
  }

  /** Hands the offer over, unless the receiver is gone or its one place is taken. */
  function Send(s: State, c: nat, to: nat, target: Id, expected: PublicKey): State
    requires c in s.threads
  {
    var left := At(s, c, Leaving);
    if to !in left.threads || !Receives(left.threads[to].stage) || left.threads[to].channel != [] then left
    else
      var offer := Offer(c, s.threads[c].who, target, expected);
      left.(threads := left.threads[to := left.threads[to].(channel := [offer])], offers := s.offers + [(to, offer)])
  }

  function ThreadStep(s: State, c: nat, move: Move): State
    requires c in s.threads
  {
    var who := s.threads[c].who;
    match s.threads[c].stage
    case Verified => if move.Proceed? then Register(s, c) else s
    case Announcing =>
      if !move.Proceed? then s
      else if move.fails then At(s, c, Leaving)
      else At(s, c, Serving(s.now))
    case Serving(seen) => Serve(s, c, seen, move)
    case Expiring(seen, target, expected) =>
      if move.Proceed? then At(s, c, Looking(seen, target, expected)).(devices := ExpireStep(s.devices, s.now)) else s
    case Looking(seen, target, expected) => if move.Proceed? then Look(s, c, seen, target, expected) else s
    case Granted(to, target, expected) => if move.Proceed? then Send(s, c, to, target, expected) else s
    case Relaying(_) => if move.Proceed? then At(s, c, Leaving) else s
    case Leaving => if move.Proceed? then At(s, c, Gone).(devices := RemoveStep(s.devices, who.id, c)) else s
    case Gone => s
  }

  /** Connection identifiers are fresh random numbers: an identifier in use arrives no second time. */
  function Next(s: State, e: Event): State {
    match e
    case Arrive(c, who) => if c in s.threads then s else s.(threads := s.threads[c := Thread(who, Verified, [])])
    case Tick(seconds) => s.(now := s.now + seconds)
    case OtherExpires => s.(devices := ExpireStep(s.devices, s.now))
    case Step(c, move) => if c in s.threads then ThreadStep(s, c, move) else s
  }

  function Run(s: State, events: seq<Event>): State
    decreases |events|
  {
    if events == [] then s else Run(Next(s, events[0]), events[1..])
  }

  // -----------------------------------------------------------------------------------------------------------------
  // What every step keeps
  // -----------------------------------------------------------------------------------------------------------------

  /** An entry belongs to a listening connection that proved exactly its ID and key, and is past its registration. */
  ghost predicate EntryOk(threads: map<nat, Thread>, grants: map<nat, nat>, id: Id, e: Entry) {
    && e.connection in threads && threads[e.connection].who == Identity(id, e.key, true)
    && !threads[e.connection].stage.Verified?
    && (e.connection in grants <==> e.busy)
  }

  ghost predicate DevicesOk(s: State) {
    forall id | id in s.devices :: EntryOk(s.threads, s.grants, id, s.devices[id])
  }

  /** An offer is what its initiator asked for, and its receiver is the device asked for. */
  ghost predicate OfferOk(threads: map<nat, Thread>, grants: map<nat, nat>, to: nat, o: Offer) {
    && to in threads && threads[to].who.listen && threads[to].who.id == o.target
    && (o.expected == threads[to].who.key || o.expected == ANY_KEY)
    && o.from in threads && threads[o.from].who == o.initiator && !o.initiator.listen && o.initiator.id != o.target
    && to in grants && grants[to] == o.from
    && (threads[o.from].stage.Leaving? || threads[o.from].stage.Gone?)
  }

  ghost predicate ThreadOk(threads: map<nat, Thread>, grants: map<nat, nat>, c: nat)
    requires c in threads
  {
    var t := threads[c];
    && (t.stage.Expiring? || t.stage.Looking? ==> !t.who.listen && t.stage.target != t.who.id)
    && (t.stage.Granted? ==>
          && !t.who.listen && t.stage.target != t.who.id && t.stage.to in threads
          && threads[t.stage.to].who.listen && threads[t.stage.to].who.id == t.stage.target
          && (t.stage.expected == threads[t.stage.to].who.key || t.stage.expected == ANY_KEY)
          && t.stage.to in grants && grants[t.stage.to] == c)
    && |t.channel| <= 1
    && (forall o | o in t.channel :: OfferOk(threads, grants, c, o))
    && (t.stage.Relaying? ==> OfferOk(threads, grants, c, t.stage.offer))
  }

  ghost predicate ThreadsOk(s: State) {
    forall c | c in s.threads :: ThreadOk(s.threads, s.grants, c)
  }

  /** Grants are for connections past their registration. */
  ghost predicate GrantsOk(s: State) {
    forall c | c in s.grants :: c in s.threads && !s.threads[c].stage.Verified?
  }

  ghost predicate OffersOk(s: State) {
    && (forall i | 0 <= i < |s.offers| :: OfferOk(s.threads, s.grants, s.offers[i].0, s.offers[i].1))
    && (forall i, j | 0 <= i < j < |s.offers| :: s.offers[i].0 != s.offers[j].0)
  }

  ghost predicate Inv(s: State) {
    DevicesOk(s) && ThreadsOk(s) && GrantsOk(s) && OffersOk(s)
  }

  lemma StartInv()
    ensures Inv(START)
  {
  }

  predicate Over(stage: Stage) { stage.Leaving? || stage.Gone? }

  /** Nothing a thread proved or was granted is ever taken back, and a thread that is over stays over. */
  ghost predicate Evolves(s: State, t: State) {
    && (forall c | c in s.threads :: c in t.threads && Later(s.threads[c], t.threads[c]))
    && (forall c | c in s.grants :: c in t.grants && t.grants[c] == s.grants[c])
  }

  ghost predicate Later(a: Thread, b: Thread) {
    a.who == b.who && (Over(a.stage) ==> Over(b.stage)) && (b.stage.Verified? ==> a.stage.Verified?)
  }

  lemma OfferSurvives(s: State, t: State, to: nat, o: Offer)
    requires Evolves(s, t) && OfferOk(s.threads, s.grants, to, o)
    ensures OfferOk(t.threads, t.grants, to, o)
  {
    assert Later(s.threads[to], t.threads[to]) && Later(s.threads[o.from], t.threads[o.from]);
  }

  lemma ThreadSurvives(s: State, t: State, c: nat)
    requires Evolves(s, t) && c in s.threads && ThreadOk(s.threads, s.grants, c) && t.threads[c] == s.threads[c]
    ensures ThreadOk(t.threads, t.grants, c)
  {
    var x := t.threads[c];
    if x.stage.Granted? { assert Later(s.threads[x.stage.to], t.threads[x.stage.to]); }
    forall o | o in x.channel ensures OfferOk(t.threads, t.grants, c, o) { OfferSurvives(s, t, c, o); }
    if x.stage.Relaying? { OfferSurvives(s, t, c, x.stage.offer); }
  }

  lemma OthersSurvive(s: State, t: State, c: nat)
    requires Evolves(s, t) && ThreadsOk(s) && c in t.threads && ThreadOk(t.threads, t.grants, c)
    requires forall x | x in t.threads && x != c :: x in s.threads && t.threads[x] == s.threads[x]
    ensures ThreadsOk(t)
  {
    forall x | x in t.threads ensures ThreadOk(t.threads, t.grants, x) {
      if x != c { ThreadSurvives(s, t, x); }
    }
  }

  lemma OffersSurvive(s: State, t: State)
    requires Evolves(s, t) && OffersOk(s) && t.offers == s.offers
    ensures OffersOk(t)
  {
    forall i | 0 <= i < |t.offers| ensures OfferOk(t.threads, t.grants, t.offers[i].0, t.offers[i].1) {
      OfferSurvives(s, t, s.offers[i].0, s.offers[i].1);
    }
  }

  lemma GrantsSurvive(s: State, t: State)
    requires Evolves(s, t) && GrantsOk(s) && t.grants == s.grants
    ensures GrantsOk(t)
  {
    forall c | c in t.grants ensures c in t.threads && !t.threads[c].stage.Verified? {
      assert Later(s.threads[c], t.threads[c]);
    }
  }

  /** Entries that were there before, with the same owner and busy mark, are still right. */
  lemma EntriesSurvive(s: State, t: State)
    requires Evolves(s, t) && DevicesOk(s) && t.grants == s.grants
    requires forall id | id in t.devices :: id in s.devices && t.devices[id].(seen := 0) == s.devices[id].(seen := 0)
    ensures DevicesOk(t)
  {
    forall id | id in t.devices ensures EntryOk(t.threads, t.grants, id, t.devices[id]) {
      assert EntryOk(s.threads, s.grants, id, s.devices[id]);
      assert Later(s.threads[s.devices[id].connection], t.threads[t.devices[id].connection]);
    }
  }

  ghost predicate SameEntries(d: Devices, e: Devices) {
    forall id | id in e :: id in d && e[id].(seen := 0) == d[id].(seen := 0)
  }

  /** A step of one thread that grants and offers nothing. */
  lemma QuietStepKeeps(s: State, t: State, c: nat)
    requires Inv(s) && c in s.threads && t.threads.Keys == s.threads.Keys && t.grants == s.grants && t.offers == s.offers
    requires forall x | x in s.threads && x != c :: t.threads[x] == s.threads[x]
    requires Later(s.threads[c], t.threads[c]) && ThreadOk(t.threads, t.grants, c) && SameEntries(s.devices, t.devices)
    ensures Inv(t)
  {
    assert Evolves(s, t);
    OthersSurvive(s, t, c);
    OffersSurvive(s, t);
    GrantsSurvive(s, t);
    EntriesSurvive(s, t);
  }

  /** Moving to a stage that claims nothing. */
  lemma PlainStageKeeps(s: State, c: nat, stage: Stage, devices: Devices)
    requires Inv(s) && c in s.threads && !Over(s.threads[c].stage) && !stage.Verified? && SameEntries(s.devices, devices)
    requires !stage.Expiring? && !stage.Looking? && !stage.Granted? && !stage.Relaying?
    ensures Inv(At(s, c, stage).(devices := devices))
  {
    var t := At(s, c, stage).(devices := devices);
    assert ThreadOk(s.threads, s.grants, c);
    forall o | o in t.threads[c].channel ensures OfferOk(t.threads, t.grants, c, o) { OfferSurvives(s, t, c, o); }
    QuietStepKeeps(s, t, c);
  }

  lemma OutgoingHasNoOffers(s: State, c: nat)
    requires ThreadsOk(s) && c in s.threads && !s.threads[c].who.listen
    ensures s.threads[c].channel == []
  {
    FirstIsMember(s.threads[c].channel);
    assert ThreadOk(s.threads, s.grants, c);
  }

  lemma FirstIsMember<T>(s: seq<T>)
    ensures s == [] || exists x :: x in s
  {
    if s != [] { assert s[0] in s; }
  }

  lemma SearchingKeeps(s: State, c: nat, stage: Stage, devices: Devices)
    requires Inv(s) && c in s.threads && !Over(s.threads[c].stage) && SameEntries(s.devices, devices)
    requires (stage.Expiring? || stage.Looking?) && !s.threads[c].who.listen && stage.target != s.threads[c].who.id
    ensures Inv(At(s, c, stage).(devices := devices))
  {
    var t := At(s, c, stage).(devices := devices);
    assert ThreadOk(s.threads, s.grants, c);
    OutgoingHasNoOffers(s, c);
    QuietStepKeeps(s, t, c);
  }

  lemma RegisterKeeps(s: State, c: nat)
    requires Inv(s) && c in s.threads && s.threads[c].stage.Verified?
    ensures Inv(Register(s, c))
  {
    var who := s.threads[c].who;
    var t := Register(s, c);
    if !who.listen || InsertStep(s.devices, who.id, who.key, c, s.now).Err? {
      PlainStageKeeps(s, c, t.threads[c].stage, s.devices);
    } else {
      var u := At(s, c, Announcing);
      PlainStageKeeps(s, c, Announcing, s.devices);
      assert u.(devices := s.devices) == u;
      forall id | id in t.devices ensures EntryOk(t.threads, t.grants, id, t.devices[id]) {
        if id != who.id { assert EntryOk(u.threads, u.grants, id, u.devices[id]); }
      }
    }
  }

  lemma TakeOfferKeeps(s: State, c: nat, seen: nat)
    requires Inv(s) && c in s.threads && s.threads[c].stage == Serving(seen)
    ensures Inv(Serve(s, c, seen, TakeOffer))
  {
    if s.threads[c].channel != [] {
      var t := Serve(s, c, seen, TakeOffer);
      assert ThreadOk(s.threads, s.grants, c);
      assert s.threads[c].channel[0] in s.threads[c].channel;
      OfferSurvives(s, t, c, s.threads[c].channel[0]);
      assert t.threads[c].channel == [];
      QuietStepKeeps(s, t, c);
    }
  }

  lemma ServeKeeps(s: State, c: nat, seen: nat, move: Move)
    requires Inv(s) && c in s.threads && s.threads[c].stage == Serving(seen)
    ensures Inv(Serve(s, c, seen, move))
  {
    var who := s.threads[c].who;
    var touched := TouchStep(s.devices, who.id, c, s.now);
    match move
    case TakeOffer => TakeOfferKeeps(s, c, seen);
    case Heartbeat(_) => PlainStageKeeps(s, c, Serving(s.now), touched);
    case Connect(target, expected, _) =>
      if !who.listen {
        PlainStageKeeps(s, c, Serving(seen), touched);
        assert At(s, c, Serving(seen)) == s by { assert s.threads[c := s.threads[c].(stage := Serving(seen))] == s.threads; }
        if target != who.id { SearchingKeeps(s, c, Expiring(seen, target, expected), touched); }
      }
    case CheckPresence => PlainStageKeeps(s, c, Leaving, s.devices);
    case Quit => PlainStageKeeps(s, c, Leaving, s.devices);
    case Proceed(_) =>
  }

  lemma LookKeeps(s: State, c: nat)
    requires Inv(s) && c in s.threads && s.threads[c].stage.Looking?
    ensures var k := s.threads[c].stage; Inv(Look(s, c, k.seen, k.target, k.expected))
  {
    var k := s.threads[c].stage;
    var found := FindStep(s.devices, k.target, k.expected);
    assert ThreadOk(s.threads, s.grants, c);
    if found.Err? {
      PlainStageKeeps(s, c, Serving(k.seen), s.devices);
    } else {
      GrantKeeps(s, c, k.target, k.expected);
    }
  }

  lemma GrantKeeps(s: State, c: nat, target: Id, expected: PublicKey)
    requires Inv(s) && c in s.threads && s.threads[c].stage.Looking? && !s.threads[c].who.listen && target != s.threads[c].who.id
    requires FindStep(s.devices, target, expected).Ok?
    ensures var (devices, to) := FindStep(s.devices, target, expected).value;
            Inv(At(s, c, Granted(to, target, expected)).(devices := devices, grants := s.grants[to := c]))
  {
    var (devices, to) := FindStep(s.devices, target, expected).value;
    var t := At(s, c, Granted(to, target, expected)).(devices := devices, grants := s.grants[to := c]);
    assert EntryOk(s.threads, s.grants, target, s.devices[target]);
    assert Evolves(s, t);
    assert ThreadOk(s.threads, s.grants, c);
    OutgoingHasNoOffers(s, c);
    OthersSurvive(s, t, c);
    OffersSurvive(s, t);
    forall id | id in t.devices ensures EntryOk(t.threads, t.grants, id, t.devices[id]) {
      assert EntryOk(s.threads, s.grants, id, s.devices[id]);
    }
  }

  /** The one place of a granted connection's channel is free, and nothing was ever offered to it. */
  lemma GrantedChannelIsEmpty(s: State, c: nat)
    requires Inv(s) && c in s.threads && s.threads[c].stage.Granted?
    ensures var to := s.threads[c].stage.to;
            && to in s.threads && s.threads[to].channel == [] && to != c
            && (forall i | 0 <= i < |s.offers| :: s.offers[i].0 != to)
  {
    var to := s.threads[c].stage.to;
    assert ThreadOk(s.threads, s.grants, c) && ThreadOk(s.threads, s.grants, to);
    FirstIsMember(s.threads[to].channel);
  }

  lemma SendKeeps(s: State, c: nat)
    requires Inv(s) && c in s.threads && s.threads[c].stage.Granted?
    ensures var k := s.threads[c].stage; Inv(Send(s, c, k.to, k.target, k.expected))
  {
    var k := s.threads[c].stage;
    GrantedChannelIsEmpty(s, c);
    var left := At(s, c, Leaving);
    PlainStageKeeps(s, c, Leaving, s.devices);
    assert left.(devices := s.devices) == left;
    if k.to in left.threads && Receives(left.threads[k.to].stage) {
      assert ThreadOk(s.threads, s.grants, c);
      DeliverKeeps(left, c, k.to, Offer(c, s.threads[c].who, k.target, k.expected));
    }
  }

  lemma DeliverKeeps(s: State, c: nat, to: nat, offer: Offer)
    requires Inv(s) && to in s.threads && s.threads[to].channel == [] && (forall i | 0 <= i < |s.offers| :: s.offers[i].0 != to)
    requires OfferOk(s.threads, s.grants, to, offer)
    ensures Inv(s.(threads := s.threads[to := s.threads[to].(channel := [offer])], offers := s.offers + [(to, offer)]))
  {
    var u := s.(threads := s.threads[to := s.threads[to].(channel := [offer])]);
    assert ThreadOk(s.threads, s.grants, to);
    OfferSurvives(s, u, to, offer);
    if s.threads[to].stage.Relaying? { OfferSurvives(s, u, to, s.threads[to].stage.offer); }
    QuietStepKeeps(s, u, to);
  }

  lemma ThreadStepKeeps(s: State, c: nat, move: Move)
    requires Inv(s) && c in s.threads
    ensures Inv(ThreadStep(s, c, move))
  {
    assert ThreadOk(s.threads, s.grants, c);
    match s.threads[c].stage
    case Verified => RegisterKeeps(s, c);
    case Announcing =>
      PlainStageKeeps(s, c, Leaving, s.devices);
      PlainStageKeeps(s, c, Serving(s.now), s.devices);
    case Serving(seen) => ServeKeeps(s, c, seen, move);
    case Expiring(seen, target, expected) => SearchingKeeps(s, c, Looking(seen, target, expected), ExpireStep(s.devices, s.now));
    case Looking(_, _, _) => LookKeeps(s, c);
    case Granted(_, _, _) => SendKeeps(s, c);
    case Relaying(_) => PlainStageKeeps(s, c, Leaving, s.devices);
    case Leaving => GoneKeeps(s, c);
    case Gone =>
  }

  lemma GoneKeeps(s: State, c: nat)
    requires Inv(s) && c in s.threads && s.threads[c].stage.Leaving?
    ensures Inv(At(s, c, Gone).(devices := RemoveStep(s.devices, s.threads[c].who.id, c)))
  {
    var t := At(s, c, Gone).(devices := RemoveStep(s.devices, s.threads[c].who.id, c));
    assert ThreadOk(s.threads, s.grants, c);
    forall o | o in t.threads[c].channel ensures OfferOk(t.threads, t.grants, c, o) { OfferSurvives(s, t, c, o); }
    QuietStepKeeps(s, t, c);
  }

  lemma ArriveKeeps(s: State, c: nat, who: Identity)
    requires Inv(s) && c !in s.threads
    ensures Inv(s.(threads := s.threads[c := Thread(who, Verified, [])]))
  {
    var t := s.(threads := s.threads[c := Thread(who, Verified, [])]);
    assert Evolves(s, t);
    OthersSurvive(s, t, c);
    OffersSurvive(s, t);
    GrantsSurvive(s, t);
    EntriesSurvive(s, t);
  }

  lemma NextKeeps(s: State, e: Event)
    requires Inv(s)
    ensures Inv(Next(s, e))
  {
    match e
    case Arrive(c, who) => if c !in s.threads { ArriveKeeps(s, c, who); }
    case Tick(_) =>
    case OtherExpires => EntriesSurvive(s, Next(s, e));
    case Step(c, move) => if c in s.threads { ThreadStepKeeps(s, c, move); }
  }

  lemma {:induction false} RunKeeps(s: State, events: seq<Event>)
    requires Inv(s)
    ensures Inv(Run(s, events))
    decreases |events|
  {
    if events != [] {
      NextKeeps(s, events[0]);
      RunKeeps(Next(s, events[0]), events[1..]);
    }
  }

  // -----------------------------------------------------------------------------------------------------------------
  // What it comes to, for every interleaving
  // -----------------------------------------------------------------------------------------------------------------

  /** No registration is ever offered more than one peer. */
  lemma OneOfferPerRegistration(events: seq<Event>, i: nat, j: nat)
    requires var s := Run(START, events); i < j < |s.offers|
    ensures var s := Run(START, events); s.offers[i].0 != s.offers[j].0
  {
    StartInv();
    RunKeeps(START, events);
  }

  /** So the channel of capacity one is never full: an offer fails only if its receiver has already ended. */
  lemma OffersAreNeverRefused(events: seq<Event>, c: nat)
    requires var s := Run(START, events); c in s.threads && s.threads[c].stage.Granted?
    ensures var s := Run(START, events);
            var to := s.threads[c].stage.to;
            var t := Next(s, Step(c, Proceed(false)));
            && to in s.threads && s.threads[to].channel == []
            && (if Receives(s.threads[to].stage) then |t.offers| == |s.offers| + 1 && t.threads[to].channel == [t.offers[|s.offers|].1]
                else t.offers == s.offers)
  {
    StartInv();
    RunKeeps(START, events);
    GrantedChannelIsEmpty(Run(START, events), c);
  }

  /**
   Whoever is paired asked for it: the receiver proved the ID asked for and, unless any key was accepted, the key asked
   for; the initiator is an outgoing connection that proved the identity the receiver is told.
   */
  lemma PairsAsAsked(events: seq<Event>, i: nat)
    requires i < |Run(START, events).offers|
    ensures var s := Run(START, events);
            var (to, o) := s.offers[i];
            && to in s.threads && s.threads[to].who.listen && s.threads[to].who.id == o.target
            && (o.expected == s.threads[to].who.key || o.expected == ANY_KEY)
            && o.from in s.threads && s.threads[o.from].who == o.initiator && !o.initiator.listen && o.initiator.id != o.target
  {
    StartInv();
    RunKeeps(START, events);
    var s := Run(START, events);
    assert OfferOk(s.threads, s.grants, s.offers[i].0, s.offers[i].1);
  }

  /** An entry that stays has the key it had: only the same key re-registers. */
  lemma KeysAreStable(s: State, e: Event, id: Id)
    requires id in s.devices && id in Next(s, e).devices
    ensures Next(s, e).devices[id].key == s.devices[id].key
  {
  }

  ghost predicate Present(s: State, events: seq<Event>, id: Id)
    decreases |events|
  {
    id in s.devices && (events != [] ==> Present(Next(s, events[0]), events[1..], id))
  }

  /** Over any run: while an ID's entry is present its key never changes. */
  lemma {:induction false} KeyStaysWhilePresent(s: State, events: seq<Event>, id: Id)
    requires Present(s, events, id)
    ensures id in Run(s, events).devices && Run(s, events).devices[id].key == s.devices[id].key
    decreases |events|
  {
    if events != [] {
      KeysAreStable(s, events[0], id);
      KeyStaysWhilePresent(Next(s, events[0]), events[1..], id);
    }
  }

  /** The end of a connection removes at most its own entry, whatever has registered since. */
  lemma CleanupSparesNewerEntries(s: State, c: nat, id: Id)
    requires c in s.threads && s.threads[c].stage.Leaving? && id in s.devices && s.devices[id].connection != c
    ensures var t := Next(s, Step(c, Proceed(false)));
            t.threads[c].stage.Gone? && id in t.devices && t.devices[id] == s.devices[id]
  {
  }

  /** And after it, for good, no entry is the connection's. */
  ghost predicate Stale(s: State, c: nat) {
    c in s.threads && !s.threads[c].stage.Verified? && (forall id | id in s.devices :: s.devices[id].connection != c)
  }

  lemma CleanupIsComplete(s: State, c: nat)
    requires Inv(s) && c in s.threads && s.threads[c].stage.Leaving?
    ensures Stale(Next(s, Step(c, Proceed(false))), c)
  {
    var t := Next(s, Step(c, Proceed(false)));
    forall id | id in t.devices ensures t.devices[id].connection != c {
      assert EntryOk(s.threads, s.grants, id, s.devices[id]);
    }
  }

  /** No entry is the connection's after a lock's work if none was before. */
  lemma DirectoryStaysWithout(d: Devices, c: nat, id: Id, connection: nat, now: nat)
    requires forall x | x in d :: d[x].connection != c
    ensures forall x | x in TouchStep(d, id, connection, now) :: TouchStep(d, id, connection, now)[x].connection != c
    ensures forall x | x in ExpireStep(d, now) :: ExpireStep(d, now)[x].connection != c
    ensures forall x | x in RemoveStep(d, id, connection) :: RemoveStep(d, id, connection)[x].connection != c
  {
  }

  lemma StaleServeStays(s: State, x: nat, seen: nat, move: Move, c: nat)
    requires Stale(s, c) && x in s.threads && s.threads[x].stage == Serving(seen)
    ensures Stale(Serve(s, x, seen, move), c) && Serve(s, x, seen, move).grants == s.grants
  {
    DirectoryStaysWithout(s.devices, c, s.threads[x].who.id, x, s.now);
  }

  lemma StaleThreadStepStays(s: State, x: nat, move: Move, c: nat)
    requires Stale(s, c) && x in s.threads
    ensures Stale(ThreadStep(s, x, move), c)
    ensures c in ThreadStep(s, x, move).grants <==> c in s.grants
  {
    DirectoryStaysWithout(s.devices, c, s.threads[x].who.id, x, s.now);
    match s.threads[x].stage
    case Serving(seen) => StaleServeStays(s, x, seen, move, c);
    case _ =>
  }

  lemma StaleStepStays(s: State, e: Event, c: nat)
    requires Stale(s, c)
    ensures Stale(Next(s, e), c)
    ensures c in Next(s, e).grants <==> c in s.grants
  {
    match e
    case Step(x, move) => if x in s.threads { StaleThreadStepStays(s, x, move, c); }
    case _ => DirectoryStaysWithout(s.devices, c, 0, 0, s.now);
  }

  /** A registration that was replaced, removed or has expired is never found again. */
  lemma {:induction false} StaleStaysStale(s: State, events: seq<Event>, c: nat)
    requires Stale(s, c)
    ensures Stale(Run(s, events), c) && (c in Run(s, events).grants <==> c in s.grants)
    decreases |events|
  {
    if events != [] {
      StaleStepStays(s, events[0], c);
      StaleStaysStale(Next(s, events[0]), events[1..], c);
    }
  }

  /** Nothing an outgoing connection does touches the entry of its own ID, except that expired entries are cleared. */
  lemma OutgoingLeavesOwnEntry(s: State, c: nat, move: Move)
    requires Inv(s) && c in s.threads && !s.threads[c].who.listen && s.threads[c].who.id in s.devices
    ensures var id, t := s.threads[c].who.id, Next(s, Step(c, move));
            if id in t.devices then t.devices[id] == s.devices[id]
            else s.threads[c].stage.Expiring? && !Fresh(s.devices[id], s.now)
  {
    assert ThreadOk(s.threads, s.grants, c);
    assert EntryOk(s.threads, s.grants, s.threads[c].who.id, s.devices[s.threads[c].who.id]);
  }

  // -----------------------------------------------------------------------------------------------------------------
  // A listener that keeps in touch can be reached
  // -----------------------------------------------------------------------------------------------------------------

  /** The listener is waiting for its answer, or serving, and the directory has seen it at a given time. */
  ghost predicate Listening(s: State, c: nat, who: Identity, last: nat) {
    && c in s.threads && s.threads[c].who == who && who.listen
    && (s.threads[c].stage.Announcing? || (s.threads[c].stage.Serving? && s.threads[c].stage.seen >= last))
    && who.id in s.devices
    && var e := s.devices[who.id]; e.connection == c && e.key == who.key && e.seen == last
  }

  predicate Registers(s: State, x: nat, move: Move, id: Id) {
    x in s.threads && s.threads[x].stage.Verified? && s.threads[x].who.listen && s.threads[x].who.id == id && move.Proceed?
  }

  /** The listener itself neither quits nor takes up an offer, and nobody else registers its ID. All else may happen. */
  predicate LeavesListening(s: State, e: Event, c: nat, id: Id) {
    match e
    case Step(x, move) =>
      if x == c then !move.Quit? && (move.TakeOffer? ==> c in s.threads && s.threads[c].channel == []) && move != Proceed(true)
      else !Registers(s, x, move, id)
    case _ => true
  }

  /** A heartbeat with the right token that the listener receives. */
  predicate IsBeat(s: State, e: Event, c: nat) {
    c in s.threads && s.threads[c].stage.Serving? && e == Step(c, Heartbeat(true))
  }

  /** Throughout these events the last heartbeat is less than ninety seconds ago. */
  ghost predicate InTouch(s: State, events: seq<Event>, c: nat, id: Id, last: nat)
    decreases |events|
  {
    && s.now < last + PRESENCE_TTL
    && (events == []
        || (LeavesListening(s, events[0], c, id)
            && InTouch(Next(s, events[0]), events[1..], c, id, if IsBeat(s, events[0], c) then s.now else last)))
  }

  lemma OwnStepListens(s: State, c: nat, move: Move, who: Identity, last: nat)
    requires Listening(s, c, who, last) && last <= s.now < last + PRESENCE_TTL && LeavesListening(s, Step(c, move), c, who.id)
    ensures Listening(Next(s, Step(c, move)), c, who, if IsBeat(s, Step(c, move), c) then s.now else last)
  {
  }

  lemma OtherStepListens(s: State, x: nat, move: Move, c: nat, who: Identity, last: nat)
    requires Listening(s, c, who, last) && last <= s.now < last + PRESENCE_TTL && x != c && !Registers(s, x, move, who.id)
    ensures Listening(Next(s, Step(x, move)), c, who, last)
  {
    if x in s.threads && s.threads[x].stage.Granted? {
      var k := s.threads[x].stage;
      SendTouchesNoEntry(s, x, k.to, k.target, k.expected);
    }
  }

  lemma SendTouchesNoEntry(s: State, x: nat, to: nat, target: Id, expected: PublicKey)
    requires x in s.threads
    ensures var t := Send(s, x, to, target, expected);
            t.devices == s.devices && forall c | c in s.threads && c != x :: c in t.threads && t.threads[c].(channel := []) == s.threads[c].(channel := [])
  {
  }

  lemma EventListens(s: State, e: Event, c: nat, who: Identity, last: nat)
    requires Listening(s, c, who, last) && last <= s.now < last + PRESENCE_TTL && LeavesListening(s, e, c, who.id)
    ensures Listening(Next(s, e), c, who, if IsBeat(s, e, c) then s.now else last) && s.now <= Next(s, e).now
  {
    match e
    case Step(x, move) => if x == c { OwnStepListens(s, c, move, who, last); } else { OtherStepListens(s, x, move, c, who, last); }
    case _ =>
  }

  lemma {:induction false} RunListens(s: State, events: seq<Event>, c: nat, who: Identity, last: nat) returns (seen: nat)
    requires Listening(s, c, who, last) && last <= s.now && InTouch(s, events, c, who.id, last)
    ensures var t := Run(s, events); Listening(t, c, who, seen) && seen <= t.now < seen + PRESENCE_TTL
    decreases |events|
  {
    seen := last;
    if events != [] {
      EventListens(s, events[0], c, who, last);
      seen := RunListens(Next(s, events[0]), events[1..], c, who, if IsBeat(s, events[0], c) then s.now else last);
    }
  }

  /** A look-up for that listener, with its key or with any, is granted while nobody else has it. */
  ghost predicate Reachable(t: State, c: nat, who: Identity) {
    && who.id in t.devices && t.devices[who.id].connection == c && t.devices[who.id].key == who.key && Fresh(t.devices[who.id], t.now)
    && (!t.devices[who.id].busy ==>
          forall x, fails | Asks(t, x, who) ::
            var u := Next(t, Step(x, Proceed(fails)));
            u.threads[x].stage.Granted? && u.threads[x].stage.to == c && u.devices == t.devices[who.id := t.devices[who.id].(busy := true)])
  }

  predicate Asks(t: State, x: nat, who: Identity) {
    x in t.threads && t.threads[x].stage.Looking? && t.threads[x].stage.target == who.id
    && (t.threads[x].stage.expected == who.key || t.threads[x].stage.expected == ANY_KEY)
  }

  /**
   Over all interleavings: a connection that registers and then keeps in touch, with heartbeats less than ninety seconds apart,
   keeps its fresh entry, and while it is not busy whoever looks it up with its key or with any is granted it.
   */
  lemma ListenersStayReachable(before: seq<Event>, c: nat, events: seq<Event>)
    requires var s := Run(START, before);
             && c in s.threads && s.threads[c].stage.Verified? && s.threads[c].who.listen
             && (s.threads[c].who.id in s.devices ==> s.devices[s.threads[c].who.id].key == s.threads[c].who.key)
             && InTouch(Next(s, Step(c, Proceed(false))), events, c, s.threads[c].who.id, s.now)
    ensures var s := Run(START, before); Reachable(Run(Next(s, Step(c, Proceed(false))), events), c, s.threads[c].who)
  {
    var s := Run(START, before);
    var who, registered := s.threads[c].who, Next(s, Step(c, Proceed(false)));
    var seen := RunListens(registered, events, c, who, s.now);
    ListeningIsReachable(Run(registered, events), c, who, seen);
  }

  lemma ListeningIsReachable(t: State, c: nat, who: Identity, seen: nat)
    requires Listening(t, c, who, seen) && t.now < seen + PRESENCE_TTL
    ensures Reachable(t, c, who)
  {
  }

  /** And so a call gets through: the caller's request, its clearing of the directory, its look-up, and its offer. */
  lemma CallsGetThrough(t: State, c: nat, who: Identity, x: nat, expected: PublicKey)
    requires Reachable(t, c, who) && !t.devices[who.id].busy && (expected == who.key || expected == ANY_KEY)
    requires c in t.threads && Receives(t.threads[c].stage) && t.threads[c].channel == []
    requires x in t.threads && x != c && t.threads[x].stage.Serving? && !t.threads[x].who.listen && t.threads[x].who.id != who.id
    ensures var asked := Next(t, Step(x, Connect(who.id, expected, true)));
            var found := Next(Next(asked, Step(x, Proceed(false))), Step(x, Proceed(false)));
            var u := Next(found, Step(x, Proceed(false)));
            && found.threads[x].stage == Granted(c, who.id, expected) && found.devices[who.id].busy
            && u.threads[c].channel == [Offer(x, t.threads[x].who, who.id, expected)]
            && u.offers == t.offers + [(c, Offer(x, t.threads[x].who, who.id, expected))]
  {
  }

  /** A listener that takes its offer up relays it, and then leaves with its registration, whatever else there is. */
  lemma OffersAreTakenUp(s: State, c: nat, fails: bool)
    requires c in s.threads && s.threads[c].stage.Serving? && s.threads[c].channel != []
    ensures var relaying := Next(s, Step(c, TakeOffer));
            var left := Next(relaying, Step(c, Proceed(fails)));
            var gone, id := Next(left, Step(c, Proceed(fails))), s.threads[c].who.id;
            && relaying.threads[c].stage == Relaying(s.threads[c].channel[0]) && relaying.threads[c].channel == s.threads[c].channel[1..]
            && relaying.devices == left.devices == s.devices
            && gone.threads[c].stage.Gone? && (id in gone.devices ==> gone.devices[id].connection != c)
            && gone.devices == if id in s.devices && s.devices[id].connection == c then s.devices - {id} else s.devices
  {
  }

  /** A connection's own check ends it if it was silent for more than ninety seconds, or its entry is gone, another's or stale. */
  lemma PresenceIsChecked(s: State, c: nat)
    requires c in s.threads && s.threads[c].stage.Serving?
    ensures var t, who := Next(s, Step(c, CheckPresence)), s.threads[c].who;
            t.threads[c].stage.Leaving? <==>
              || s.now > s.threads[c].stage.seen + 90
              || (who.listen && !(who.id in s.devices && s.devices[who.id].connection == c && s.now < s.devices[who.id].seen + 90))
  {
  }

  /** What a caller clears before it looks: every entry not seen for ninety seconds, and no other. */
  lemma CallersClearTheSilent(s: State, x: nat, fails: bool)
    requires x in s.threads && s.threads[x].stage.Expiring?
    ensures var t := Next(s, Step(x, Proceed(fails)));
            && t.threads[x].stage.Looking? && t.threads[x].stage.target == s.threads[x].stage.target
            && (forall id :: id in t.devices <==> id in s.devices && s.now < s.devices[id].seen + 90)
            && (forall id | id in t.devices :: t.devices[id] == s.devices[id])
  {
  }
}
