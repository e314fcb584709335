/**
 The desktop session: the host loop, the host's reader and the viewer as interleaved atomic steps over a locked input
 target, a bounded command queue and two ordered streams.
 */
module DesktopSession {
  import opened Wrappers
  import opened Injection

  const QUEUE := 64
  const DRAIN := 64

  /** The attached displays, numbered in order, and whether the session may inject input. */
  datatype Config = Config(displays: seq<Display>, mayInput: bool)

  predicate Attached(c: Config) {
    0 < |c.displays| && forall i | 0 <= i < |c.displays| :: c.displays[i].index == i
  }

  datatype Target = Target(generation: nat, display: Display)

  datatype Announcement = Announcement(generation: nat, display: Display)

  /** `frame` is the generation whose picture is acknowledged, known for an honest viewer; nothing decides on it. */
  datatype Command =
    | Select(index: nat)
    | Profile
    | Ack(generation: nat, sequence: nat, frame: Option<nat>)
    | Harmless
    | Goodbye
    | Failed

  /** `meant` is the display an honest viewer aimed at; nothing decides on it. */
  datatype ViewerMessage =
    | InputMessage(generation: nat, event: Input, meant: Option<Display>)
    | SelectMessage(index: nat)
    | ProfileMessage
    | AckMessage(generation: nat, sequence: nat, frame: Option<nat>)
    | HarmlessMessage
    | CloseMessage
    | UnexpectedMessage

  datatype HostMessage = Format(generation: nat, display: Display) | Video(generation: nat, sequence: nat)

  /** Where the host loop is between two atomic steps. */
  datatype HostPc = Starting | LoopTop | Draining(left: nat) | Deciding | Announcing | Installing | Working | HostEnded

  datatype Host = Host(pc: HostPc, generation: nat, display: Display, reconfigure: Option<nat>)

  datatype ReaderPc = Receiving | Releasing(next: Command) | Zeroing(next: Command) | Enqueueing(next: Command) | Leaving | ReaderEnded

  datatype Reader = Reader(pc: ReaderPc, injected: nat, held: Held)

  datatype Viewer = Viewer(format: Option<Announcement>, events: seq<Announcement>, ui: Option<Announcement>)

  datatype Injected = Injected(generation: nat, display: Display, event: Input, meant: Option<Display>, before: set<Item>)

  /** What happened: displays by generation, injections, acknowledgements counted, what is down, refused releases. */
  datatype History = History(chosen: seq<Display>, announced: nat, log: seq<Injected>, counted: seq<(nat, Option<nat>)>,
                             down: set<Item>, refused: bool)

  datatype State = State(live: bool, host: Host, reader: Reader, viewer: Viewer, target: Target, commands: seq<Command>,
                         toHost: seq<ViewerMessage>, toViewer: seq<HostMessage>, past: History)

  predicate Initial(c: Config, s: State)
    requires Attached(c)
  {
    s == State(true, Host(Starting, 1, c.displays[0], None), Reader(Receiving, 0, NOTHING_HELD), Viewer(None, [], None),
               Target(1, c.displays[0]), [], [], [], History([c.displays[0]], 0, [], [], {}, false))
  }

  // -----------------------------------------------------------------------------------------------------------------
  // The host loop
  // -----------------------------------------------------------------------------------------------------------------

  /** What the outside decides in one host step. */
  datatype HostChoice = HostChoice(fails: bool, adapts: bool, fallsBack: bool, frames: seq<nat>)

  function StopHost(s: State): State {
    s.(live := false, host := s.host.(pc := HostEnded))
  }

  function At(s: State, pc: HostPc): State { s.(host := s.host.(pc := pc)) }

  function Announce(s: State, next: HostPc): State {
    s.(host := s.host.(pc := next), toViewer := s.toViewer + [Format(s.host.generation, s.host.display)],
       past := s.past.(announced := s.host.generation))
  }

  function Handle(c: Config, s: State, command: Command, next: HostPc, fails: bool): State {
    match command
    case Select(index) =>
      if index >= |c.displays| then StopHost(s)
      else s.(host := s.host.(pc := next, reconfigure := Some(index)))
    case Profile => s.(host := s.host.(pc := next, reconfigure := Some(s.host.display.index)))
    case Ack(generation, _, frame) =>
      if generation == s.host.generation then At(s, next).(past := s.past.(counted := s.past.counted + [(generation, frame)]))
      else At(s, next)
    case Harmless => if fails then StopHost(s) else At(s, next)
    case Goodbye => StopHost(s)
    case Failed => StopHost(s)
  }

  function Drain(c: Config, s: State, left: nat, fails: bool): State {
    if left == 0 || s.commands == [] then At(s, Deciding)
    else Handle(c, s.(commands := s.commands[1..]), s.commands[0], Draining(left - 1), fails)
  }

  /** Takes the pending switch, if the session goes on and one is pending after the adaptive controller had its say. */
  function Decide(c: Config, s: State, k: HostChoice): State {
    var pending := if k.adapts then Some(s.host.display.index) else s.host.reconfigure;
    if pending.None? then if k.fails then StopHost(s) else At(s, Working)
    else if k.fails || pending.value >= |c.displays| then StopHost(s)
    else
      var display := c.displays[pending.value];
      s.(host := Host(Announcing, s.host.generation + 1, display, None), past := s.past.(chosen := s.past.chosen + [display]))
  }

  function Frames(generation: nat, frames: seq<nat>): seq<HostMessage> {
    seq(|frames|, i requires 0 <= i < |frames| => Video(generation, frames[i]))
  }

  function Work(s: State, k: HostChoice): State {
    var sent := s.(toViewer := s.toViewer + Frames(s.host.generation, k.frames));
    if k.fails then StopHost(sent)
    else sent.(host := s.host.(pc := LoopTop, reconfigure := if k.fallsBack then Some(s.host.display.index) else s.host.reconfigure))
  }

  function HostStep(c: Config, s: State, k: HostChoice): State {
    match s.host.pc
    case Starting => if k.fails then StopHost(s) else Announce(s, LoopTop)
    case LoopTop => if s.live then At(s, Draining(DRAIN)) else StopHost(s)
    case Draining(left) => Drain(c, s, left, k.fails)
    case Deciding => Decide(c, s, k)
    case Announcing => if k.fails then StopHost(s) else Announce(s, Installing)
    case Installing => At(s, Working).(target := Target(s.host.generation, s.host.display))
    case Working => Work(s, k)
    case HostEnded => s
  }

  // -----------------------------------------------------------------------------------------------------------------
  // The host's reader
  // -----------------------------------------------------------------------------------------------------------------

  datatype ReaderChoice = ReaderChoice(fails: bool, release: Env, apply: Env)

  function ReaderAt(s: State, pc: ReaderPc): State { s.(reader := s.reader.(pc := pc)) }

  /** Lifts everything the reader remembers; a refusal is remembered by nobody but the history. */
  function Release(s: State, env: Env): (State, bool) {
    var (held, out, r) := ReleaseStep(s.reader.held, env);
    (s.(reader := s.reader.(held := held), past := s.past.(down := Down(s.past.down, out), refused := s.past.refused || r.Err?)),
     r.Ok?)
  }

  /** Applies one input to the target's display; the target stays locked throughout. */
  function Apply(c: Config, s: State, m: ViewerMessage, env: Env): State
    requires m.InputMessage?
  {
    var (held, out, r) := ApplyStep(s.reader.held, m.event, s.target.display, env.(permitted := c.mayInput));
    var attempted := r.Ok? || !(r.error.Denied? || r.error.Invalid?);
    var entry := Injected(s.target.generation, s.target.display, m.event, m.meant, s.past.down);
    s.(reader := s.reader.(held := held, pc := if r.Ok? then Receiving else Enqueueing(Failed)),
       past := s.past.(down := Down(s.past.down, out),
                       log := if attempted then s.past.log + [entry] else s.past.log,
                       refused := s.past.refused || (r.Err? && held != s.reader.held)))
  }

  function ReadInput(c: Config, s: State, m: ViewerMessage, k: ReaderChoice): State
    requires m.InputMessage?
  {
    if s.target.generation == 0 || m.generation != s.target.generation then s
    else if s.reader.injected != s.target.generation then
      var released := Release(s, k.release).0;
      Apply(c, released.(reader := released.reader.(injected := s.target.generation)), m, k.apply)
    else Apply(c, s, m, k.apply)
  }

  function Read(c: Config, s: State, m: ViewerMessage, k: ReaderChoice): State {
    match m
    case InputMessage(_, _, _) => ReadInput(c, s, m, k)
    case SelectMessage(index) =>
      ReaderAt(s, if exists d :: d in c.displays && d.index == index then Releasing(Select(index)) else Enqueueing(Failed))
    case ProfileMessage =>
      ReaderAt(s, if exists d :: d in c.displays && d.index == s.target.display.index then Releasing(Profile) else Enqueueing(Failed))
    case AckMessage(generation, sequence, frame) => ReaderAt(s, Enqueueing(Ack(generation, sequence, frame)))
    case HarmlessMessage => ReaderAt(s, Enqueueing(Harmless))
    case CloseMessage => ReaderAt(Release(s, k.release).0, Enqueueing(Goodbye))
    case UnexpectedMessage => ReaderAt(s, Enqueueing(Failed))
  }

  /** A full queue stops the session rather than the reader. */
  function Enqueue(s: State, command: Command): State {
    if |s.commands| == QUEUE then ReaderAt(s, Leaving).(live := false)
    else
      ReaderAt(s, if command.Goodbye? || command.Failed? then Leaving else Receiving).(commands := s.commands + [command])
  }

  function ReaderStep(c: Config, s: State, k: ReaderChoice): State {
    match s.reader.pc
    case Receiving =>
      if !s.live then ReaderAt(s, Leaving)
      else if k.fails then ReaderAt(s, Enqueueing(Failed))
      else if s.toHost == [] then s
      else Read(c, s.(toHost := s.toHost[1..]), s.toHost[0], k)
    case Releasing(next) =>
      var (released, ok) := Release(s, k.release);
      ReaderAt(released, if ok then Zeroing(next) else Enqueueing(Failed))
    case Zeroing(next) => ReaderAt(s, Enqueueing(next)).(target := s.target.(generation := 0))
    case Enqueueing(next) => Enqueue(s, next)
    case Leaving => ReaderAt(Release(s, k.release).0, ReaderEnded)
    case ReaderEnded => s
  }

  // -----------------------------------------------------------------------------------------------------------------
  // The viewer: an honest reader and user interface, and whatever else it may choose to send
  // -----------------------------------------------------------------------------------------------------------------

  datatype ViewerChoice = Receive | ShowFormat | UserInput(event: Input) | Anything(message: ViewerMessage)

  function Forget(m: ViewerMessage): ViewerMessage {
    match m
    case InputMessage(_, _, _) => m.(meant := None)
    case AckMessage(_, _, _) => m.(frame := None)
    case _ => m
  }

  function ViewerStep(s: State, k: ViewerChoice): State {
    match k
    case Receive =>
      if s.toViewer == [] then s
      else
        var rest := s.(toViewer := s.toViewer[1..]);
        (match s.toViewer[0]
         case Format(generation, display) =>
           var format := Announcement(generation, display);
           rest.(viewer := s.viewer.(format := Some(format), events := s.viewer.events + [format]))
         case Video(generation, sequence) =>
           if s.viewer.format.None? then rest
           else rest.(toHost := s.toHost + [AckMessage(s.viewer.format.value.generation, sequence, Some(generation))]))
    case ShowFormat =>
      if s.viewer.events == [] then s
      else s.(viewer := s.viewer.(ui := Some(s.viewer.events[0]), events := s.viewer.events[1..]))
    case UserInput(event) =>
      if s.viewer.ui.None? then s
      else s.(toHost := s.toHost + [InputMessage(s.viewer.ui.value.generation, event, Some(s.viewer.ui.value.display))])
    case Anything(message) => s.(toHost := s.toHost + [Forget(message)])
  }

  datatype Event = HostMoves(host: HostChoice) | ReaderMoves(reader: ReaderChoice) | ViewerMoves(viewer: ViewerChoice)

  function Next(c: Config, s: State, e: Event): State {
    match e
    case HostMoves(k) => HostStep(c, s, k)
    case ReaderMoves(k) => ReaderStep(c, s, k)
    case ViewerMoves(k) => ViewerStep(s, k)
  }

  function Run(c: Config, s: State, events: seq<Event>): State
    decreases |events|
  {
    if events == [] then s else Run(c, Next(c, s, events[0]), events[1..])
  }

  // -----------------------------------------------------------------------------------------------------------------
  // What every step keeps
  // -----------------------------------------------------------------------------------------------------------------

  /** A generation stands for one display, forever. */
  predicate Means(chosen: seq<Display>, generation: nat, display: Display) {
    0 < generation <= |chosen| && chosen[generation - 1] == display
  }

  ghost predicate HostOk(c: Config, host: Host, target: Target, chosen: seq<Display>) {
    && |chosen| == host.generation && Means(chosen, host.generation, host.display)
    && host.display in c.displays && target.display in c.displays
    && (target.generation != 0 ==> Means(chosen, target.generation, target.display))
    && (host.reconfigure.Some? ==> host.reconfigure.value < |c.displays|)
    && (host.pc.Draining? ==> host.pc.left <= DRAIN)
  }

  /** Which generation the viewer has been told of. */
  ghost predicate AnnouncedOk(host: Host, announced: nat) {
    && announced <= host.generation
    && (if host.pc.Starting? || host.pc.Announcing? then announced + 1 == host.generation
        else host.pc.HostEnded? || announced == host.generation)
  }

  ghost predicate CommandOk(c: Config, command: Command) {
    && (command.Select? ==> command.index < |c.displays|)
    && (command.Ack? && command.frame.Some? ==> command.frame.value == command.generation)
  }

  predicate Switches(command: Command) { command.Select? || command.Profile? }

  ghost predicate CommandsOk(c: Config, commands: seq<Command>) {
    |commands| <= QUEUE && forall i | 0 <= i < |commands| :: CommandOk(c, commands[i])
  }

  ghost predicate ReaderPcOk(c: Config, pc: ReaderPc) {
    && (pc.Enqueueing? ==> CommandOk(c, pc.next))
    && (pc.Releasing? || pc.Zeroing? ==> CommandOk(c, pc.next) && Switches(pc.next))
  }

  ghost predicate CountedOk(counted: seq<(nat, Option<nat>)>) {
    forall i | 0 <= i < |counted| :: counted[i].1.Some? ==> counted[i].1.value == counted[i].0
  }

  function Generation(m: HostMessage): nat { m.generation }

  function Seen(format: Option<Announcement>): nat { if format.None? then 0 else format.value.generation }

  ghost predicate Follows(m: HostMessage, before: nat) {
    Generation(m) == before + if m.Format? then 1 else 0
  }

  ghost predicate FollowsAt(seen: nat, toViewer: seq<HostMessage>, i: nat)
    requires i < |toViewer|
  {
    Follows(toViewer[i], if i == 0 then seen else Generation(toViewer[i - 1]))
  }

  /** Formats on their way to the viewer count up one by one, and every picture follows its own format. */
  ghost predicate PipeOk(seen: nat, toViewer: seq<HostMessage>, announced: nat) {
    && (forall i | 0 <= i < |toViewer| :: FollowsAt(seen, toViewer, i))
    && announced == if toViewer == [] then seen else Generation(toViewer[|toViewer| - 1])
  }

  ghost predicate Tells(chosen: seq<Display>, m: HostMessage) { m.Format? ==> Means(chosen, m.generation, m.display) }

  ghost predicate TellsOk(chosen: seq<Display>, toViewer: seq<HostMessage>) {
    forall i | 0 <= i < |toViewer| :: Tells(chosen, toViewer[i])
  }

  ghost predicate Told(chosen: seq<Display>, a: Announcement) { Means(chosen, a.generation, a.display) }

  ghost predicate ViewerOk(chosen: seq<Display>, viewer: Viewer) {
    && (viewer.format.Some? ==> Told(chosen, viewer.format.value))
    && (viewer.ui.Some? ==> Told(chosen, viewer.ui.value))
    && (forall i | 0 <= i < |viewer.events| :: Told(chosen, viewer.events[i]))
  }

  ghost predicate AimOk(chosen: seq<Display>, m: ViewerMessage) {
    && (m.InputMessage? && m.meant.Some? ==> Means(chosen, m.generation, m.meant.value))
    && (m.AckMessage? && m.frame.Some? ==> m.frame.value == m.generation)
  }

  ghost predicate AimsOk(chosen: seq<Display>, toHost: seq<ViewerMessage>) {
    forall i | 0 <= i < |toHost| :: AimOk(chosen, toHost[i])
  }

  /** An injection hit the display of the generation it carried, and the one the viewer meant. */
  ghost predicate Faithful(c: Config, chosen: seq<Display>, e: Injected) {
    && c.mayInput && Means(chosen, e.generation, e.display) && Valid(e.event, e.display)
    && (e.meant.Some? ==> e.meant.value == e.display)
  }

  ghost predicate LogOk(c: Config, chosen: seq<Display>, log: seq<Injected>) {
    forall i | 0 <= i < |log| :: Faithful(c, chosen, log[i])
  }

  function Latest(log: seq<Injected>): nat { if log == [] then 0 else log[|log| - 1].generation }

  ghost predicate Ordered(log: seq<Injected>) {
    forall i, j | 0 <= i < j < |log| :: log[i].generation <= log[j].generation
  }

  ghost predicate GenerationsOk(log: seq<Injected>, injected: nat, target: nat, generation: nat) {
    Ordered(log) && Latest(log) <= injected <= generation && (target != 0 ==> injected <= target)
  }

  /** The first injection of a generation finds nothing held down. */
  ghost predicate StartsClean(log: seq<Injected>, i: nat)
    requires i < |log|
  {
    (i == 0 || log[i - 1].generation < log[i].generation) ==> log[i].before == {}
  }

  ghost predicate CleanOk(log: seq<Injected>) {
    forall i | 0 <= i < |log| :: StartsClean(log, i)
  }

  ghost predicate HeldOk(log: seq<Injected>, held: Held, injected: nat, down: set<Item>) {
    && down == Items(held) && CleanOk(log)
    && (log == [] || Latest(log) < injected ==> down == {})
  }

  /** The switch that will give the target its generation back. */
  ghost predicate Pending(host: Host, commands: seq<Command>) {
    host.reconfigure.Some? || host.pc.Announcing? || host.pc.Installing?
    || (exists i :: 0 <= i < |commands| && Switches(commands[i]))
  }

  ghost predicate BeingSent(pc: ReaderPc) { pc.Enqueueing? && Switches(pc.next) }

  ghost predicate HostSide(c: Config, s: State) {
    HostOk(c, s.host, s.target, s.past.chosen) && AnnouncedOk(s.host, s.past.announced)
  }

  ghost predicate Queues(c: Config, s: State) {
    CommandsOk(c, s.commands) && ReaderPcOk(c, s.reader.pc) && CountedOk(s.past.counted)
  }

  ghost predicate Pipes(s: State) {
    && PipeOk(Seen(s.viewer.format), s.toViewer, s.past.announced) && TellsOk(s.past.chosen, s.toViewer)
    && ViewerOk(s.past.chosen, s.viewer) && AimsOk(s.past.chosen, s.toHost)
  }

  ghost predicate Injections(c: Config, s: State) {
    && LogOk(c, s.past.chosen, s.past.log)
    && GenerationsOk(s.past.log, s.reader.injected, s.target.generation, |s.past.chosen|)
    && WellFormed(s.reader.held)
    && (!s.past.refused ==> HeldOk(s.past.log, s.reader.held, s.reader.injected, s.past.down))
  }

  ghost predicate Recovers(s: State) {
    s.live && s.target.generation == 0 ==> BeingSent(s.reader.pc) || Pending(s.host, s.commands)
  }

  ghost predicate Inv(c: Config, s: State) {
    HostSide(c, s) && Queues(c, s) && Pipes(s) && Injections(c, s) && Recovers(s)
  }

  lemma InitialInv(c: Config, s: State)
    requires Attached(c) && Initial(c, s)
    ensures Inv(c, s)
  {
  }

  // The host

  lemma AnnounceKeeps(c: Config, s: State, next: HostPc)
    requires Attached(c) && Inv(c, s)
    requires (s.host.pc.Starting? && next.LoopTop?) || (s.host.pc.Announcing? && next.Installing?)
    ensures Inv(c, Announce(s, next))
  {
    var t := Announce(s, next);
    PipeAppends(Seen(s.viewer.format), s.toViewer, s.past.announced, Format(s.host.generation, s.host.display));
    assert Tells(s.past.chosen, Format(s.host.generation, s.host.display));
  }

  lemma PipeAppends(seen: nat, toViewer: seq<HostMessage>, announced: nat, m: HostMessage)
    requires PipeOk(seen, toViewer, announced) && Follows(m, announced)
    ensures PipeOk(seen, toViewer + [m], Generation(m))
  {
    var after := toViewer + [m];
    forall i | 0 <= i < |after| ensures FollowsAt(seen, after, i) {
      if i < |toViewer| { assert FollowsAt(seen, toViewer, i); }
    }
  }

  lemma {:induction false} PicturesAppend(seen: nat, toViewer: seq<HostMessage>, announced: nat, frames: seq<nat>)
    requires PipeOk(seen, toViewer, announced)
    ensures PipeOk(seen, toViewer + Frames(announced, frames), announced)
  {
    if frames == [] {
      assert toViewer + Frames(announced, frames) == toViewer;
    } else {
      var init, last := frames[..|frames| - 1], frames[|frames| - 1];
      PicturesAppend(seen, toViewer, announced, init);
      PipeAppends(seen, toViewer + Frames(announced, init), announced, Video(announced, last));
      assert toViewer + Frames(announced, frames) == toViewer + Frames(announced, init) + [Video(announced, last)];
    }
  }

  lemma TakingCommandKeepsPending(host: Host, commands: seq<Command>)
    requires commands != [] && !Switches(commands[0]) && Pending(host, commands)
    ensures Pending(host, commands[1..])
  {
    if i: int :| 0 <= i < |commands| && Switches(commands[i]) {
      assert commands[1..][i - 1] == commands[i];
    }
  }

  ghost predicate Safe(c: Config, s: State) {
    HostSide(c, s) && Queues(c, s) && Pipes(s) && Injections(c, s)
  }

  lemma StoppingKeeps(c: Config, s: State)
    requires Safe(c, s)
    ensures Inv(c, StopHost(s))
  {
  }

  lemma PostponingKeeps(c: Config, s: State, left: nat, index: nat)
    requires Safe(c, s) && s.host.pc.Draining? && left <= DRAIN && index < |c.displays|
    ensures Inv(c, s.(host := s.host.(pc := Draining(left), reconfigure := Some(index))))
  {
  }

  lemma CountingKeeps(c: Config, s: State, left: nat, counted: seq<(nat, Option<nat>)>)
    requires Inv(c, s) && s.host.pc.Draining? && left <= DRAIN && CountedOk(counted)
    ensures Inv(c, At(s, Draining(left)).(past := s.past.(counted := counted)))
  {
  }

  /** Once a command has been taken off: a switch becomes pending, and nothing else loses a pending one. */
  lemma HandleKeeps(c: Config, s: State, command: Command, left: nat, fails: bool) returns (t: State)
    requires Attached(c) && Safe(c, s) && CommandOk(c, command)
    requires Switches(command) || Recovers(s)
    requires s.host.pc.Draining? && left <= DRAIN
    ensures t == Handle(c, s, command, Draining(left), fails) && Inv(c, t)
  {
    t := Handle(c, s, command, Draining(left), fails);
    match command
    case Select(index) => PostponingKeeps(c, s, left, index);
    case Profile => PostponingKeeps(c, s, left, s.host.display.index);
    case Ack(generation, _, frame) =>
      CountingKeeps(c, s, left, s.past.counted);
      if generation == s.host.generation { CountingKeeps(c, s, left, s.past.counted + [(generation, frame)]); }
    case Harmless =>
      StoppingKeeps(c, s);
      CountingKeeps(c, s, left, s.past.counted);
    case _ => StoppingKeeps(c, s);
  }

  lemma TakingCommandKeeps(c: Config, s: State) returns (t: State)
    requires Inv(c, s) && s.commands != []
    ensures t == s.(commands := s.commands[1..]) && Safe(c, t) && CommandOk(c, s.commands[0])
    ensures Switches(s.commands[0]) || Recovers(t)
  {
    t := s.(commands := s.commands[1..]);
    if !Switches(s.commands[0]) && Pending(s.host, s.commands) { TakingCommandKeepsPending(s.host, s.commands); }
  }

  lemma DrainedKeeps(c: Config, s: State) returns (t: State)
    requires Inv(c, s) && s.host.pc.Draining?
    ensures t == At(s, Deciding) && Inv(c, t)
  {
    t := At(s, Deciding);
  }

  lemma DrainTakes(c: Config, s: State, rest: State, fails: bool, t: State)
    requires s.host.pc.Draining? && s.host.pc.left > 0 && s.commands != [] && rest == s.(commands := s.commands[1..])
    requires t == Handle(c, rest, s.commands[0], Draining(s.host.pc.left - 1), fails)
    ensures t == Drain(c, s, s.host.pc.left, fails)
  {
  }

  lemma DrainingKeeps(c: Config, s: State, fails: bool) returns (t: State)
    requires Attached(c) && Inv(c, s) && s.host.pc.Draining? && s.host.pc.left > 0 && s.commands != []
    ensures t == Drain(c, s, s.host.pc.left, fails) && Inv(c, t)
  {
    var rest := TakingCommandKeeps(c, s);
    t := HandleKeeps(c, rest, s.commands[0], s.host.pc.left - 1, fails);
    DrainTakes(c, s, rest, fails, t);
  }

  lemma LongerChoiceKeeps(c: Config, s: State, display: Display)
    requires Pipes(s) && LogOk(c, s.past.chosen, s.past.log)
    ensures var t := s.(past := s.past.(chosen := s.past.chosen + [display]));
            Pipes(t) && LogOk(c, t.past.chosen, t.past.log)
  {
    var t := s.(past := s.past.(chosen := s.past.chosen + [display]));
    assert forall g: nat, d :: Means(s.past.chosen, g, d) ==> Means(t.past.chosen, g, d);
    forall i | 0 <= i < |s.toViewer| ensures Tells(t.past.chosen, s.toViewer[i]) { assert Tells(s.past.chosen, s.toViewer[i]); }
    forall i | 0 <= i < |s.toHost| ensures AimOk(t.past.chosen, s.toHost[i]) { assert AimOk(s.past.chosen, s.toHost[i]); }
    forall i | 0 <= i < |s.past.log| ensures Faithful(c, t.past.chosen, s.past.log[i]) { assert Faithful(c, s.past.chosen, s.past.log[i]); }
    forall i | 0 <= i < |s.viewer.events| ensures Told(t.past.chosen, s.viewer.events[i]) { assert Told(s.past.chosen, s.viewer.events[i]); }
  }

  lemma DecideKeeps(c: Config, s: State, k: HostChoice)
    requires Attached(c) && Inv(c, s) && s.host.pc.Deciding?
    ensures Inv(c, Decide(c, s, k))
  {
    var pending := if k.adapts then Some(s.host.display.index) else s.host.reconfigure;
    if pending.Some? && !k.fails && pending.value < |c.displays| {
      LongerChoiceKeeps(c, s, c.displays[pending.value]);
    }
  }

  lemma WorkKeeps(c: Config, s: State, k: HostChoice)
    requires Attached(c) && Inv(c, s) && s.host.pc.Working?
    ensures Inv(c, Work(s, k))
  {
    PicturesAppend(Seen(s.viewer.format), s.toViewer, s.past.announced, k.frames);
    assert TellsOk(s.past.chosen, s.toViewer + Frames(s.past.announced, k.frames));
    assert s.host.display.index < |c.displays|;
  }

  lemma HostStepKeeps(c: Config, s: State, k: HostChoice)
    requires Attached(c) && Inv(c, s)
    ensures Inv(c, HostStep(c, s, k))
  {
    match s.host.pc
    case Starting => AnnounceKeeps(c, s, LoopTop);
    case Draining(left) =>
      if left == 0 || s.commands == [] {
        var _ := DrainedKeeps(c, s);
      } else {
        var _ := DrainingKeeps(c, s, k.fails);
      }
    case Deciding => DecideKeeps(c, s, k);
    case Announcing => AnnounceKeeps(c, s, Installing);
    case Working => WorkKeeps(c, s, k);
    case Installing => InstallingKeeps(c, s);
    case LoopTop => LoopTopKeeps(c, s);
    case HostEnded =>
  }

  lemma InstallingKeeps(c: Config, s: State)
    requires Inv(c, s) && s.host.pc.Installing?
    ensures Inv(c, At(s, Working).(target := Target(s.host.generation, s.host.display)))
  {
  }

  lemma LoopTopKeeps(c: Config, s: State)
    requires Inv(c, s) && s.host.pc.LoopTop?
    ensures Inv(c, At(s, Draining(DRAIN))) && Inv(c, StopHost(s))
  {
    StoppingKeeps(c, s);
  }

  // The reader

  lemma ReleaseKeepsInjections(c: Config, s: State, env: Env) returns (t: State)
    requires Injections(c, s)
    ensures t == Release(s, env).0 && Injections(c, t) && t.reader.held == NOTHING_HELD
    ensures !t.past.refused ==> t.past.down == {}
  {
    t := Release(s, env).0;
    if !t.past.refused { ReleaseLiftsEverything(s.reader.held, s.past.down, env); }
  }

  lemma ReleaseKeeps(c: Config, s: State, env: Env) returns (t: State)
    requires Inv(c, s)
    ensures t == Release(s, env).0 && Inv(c, t)
  {
    t := ReleaseKeepsInjections(c, s, env);
  }

  lemma MovingReaderKeeps(c: Config, s: State, pc: ReaderPc) returns (t: State)
    requires Inv(c, s) && ReaderPcOk(c, pc) && !s.reader.pc.Enqueueing?
    ensures t == ReaderAt(s, pc) && Inv(c, t)
  {
    t := ReaderAt(s, pc);
  }

  lemma LogAppends(c: Config, chosen: seq<Display>, log: seq<Injected>, entry: Injected)
    requires LogOk(c, chosen, log) && Ordered(log) && Faithful(c, chosen, entry) && Latest(log) <= entry.generation
    ensures LogOk(c, chosen, log + [entry]) && Ordered(log + [entry])
  {
  }

  lemma CleanAppends(log: seq<Injected>, entry: Injected)
    requires CleanOk(log) && (log == [] || Latest(log) < entry.generation ==> entry.before == {})
    ensures CleanOk(log + [entry])
  {
    var after := log + [entry];
    forall i | 0 <= i < |after| ensures StartsClean(after, i) {
      if i < |log| { assert StartsClean(log, i); }
    }
  }

  /** Applying under the target's generation, once the reader has taken that generation over. */
  lemma ApplyKeepsInjections(c: Config, s: State, m: ViewerMessage, env: Env) returns (t: State)
    requires HostSide(c, s) && Injections(c, s) && m.InputMessage? && AimOk(s.past.chosen, m)
    requires s.target.generation != 0 && m.generation == s.target.generation == s.reader.injected
    ensures t == Apply(c, s, m, env) && Injections(c, t)
  {
    t := Apply(c, s, m, env);
    var used := env.(permitted := c.mayInput);
    var entry := Injected(s.target.generation, s.target.display, m.event, m.meant, s.past.down);
    if t.past.log != s.past.log {
      assert Faithful(c, s.past.chosen, entry);
      LogAppends(c, s.past.chosen, s.past.log, entry);
    }
    AppliedHeld(s.reader.held, s.past, m.event, s.target.display, used);
    if !t.past.refused { CleanAppends(s.past.log, entry); }
  }

  lemma AppliedHeld(held: Held, past: History, e: Input, d: Display, env: Env)
    requires WellFormed(held)
    ensures var (h, out, r) := ApplyStep(held, e, d, env);
            && WellFormed(h)
            && (past.down == Items(held) && (r.Ok? || h == held) ==> Down(past.down, out) == Items(h))
            && (r.Err? && (r.error.Denied? || r.error.Invalid?) ==> out == [] && h == held)
  {
    ApplyRemembersWhatIsDown(held, Items(held), e, d, env);
  }

  lemma ApplyKeeps(c: Config, s: State, m: ViewerMessage, env: Env) returns (t: State)
    requires Inv(c, s) && m.InputMessage? && AimOk(s.past.chosen, m) && s.reader.pc.Receiving?
    requires s.target.generation != 0 && m.generation == s.target.generation == s.reader.injected
    ensures t == Apply(c, s, m, env) && Inv(c, t)
  {
    t := ApplyKeepsInjections(c, s, m, env);
  }

  lemma TakeOverKeeps(c: Config, s: State) returns (t: State)
    requires Inv(c, s) && s.target.generation != 0 && (!s.past.refused ==> s.past.down == {})
    ensures t == s.(reader := s.reader.(injected := s.target.generation)) && Inv(c, t)
  {
    t := s.(reader := s.reader.(injected := s.target.generation));
  }

  lemma ReadInputKeeps(c: Config, s: State, m: ViewerMessage, k: ReaderChoice) returns (t: State)
    requires Inv(c, s) && m.InputMessage? && AimOk(s.past.chosen, m) && s.reader.pc.Receiving?
    ensures t == ReadInput(c, s, m, k) && Inv(c, t)
  {
    t := s;
    if s.target.generation != 0 && m.generation == s.target.generation {
      if s.reader.injected != s.target.generation {
        var released := ReleaseKeepsInjections(c, s, k.release);
        released := ReleaseKeeps(c, s, k.release);
        t := TakeOverKeeps(c, released);
      }
      t := ApplyKeeps(c, t, m, k.apply);
    }
  }

  lemma ReadKeeps(c: Config, s: State, m: ViewerMessage, k: ReaderChoice) returns (t: State)
    requires Attached(c) && Inv(c, s) && AimOk(s.past.chosen, m) && s.reader.pc.Receiving?
    ensures t == Read(c, s, m, k) && Inv(c, t)
  {
    match m
    case InputMessage(_, _, _) => t := ReadInputKeeps(c, s, m, k);
    case SelectMessage(index) =>
      var known := exists d :: d in c.displays && d.index == index;
      t := MovingReaderKeeps(c, s, if known then Releasing(Select(index)) else Enqueueing(Failed));
    case ProfileMessage =>
      var known := exists d :: d in c.displays && d.index == s.target.display.index;
      t := MovingReaderKeeps(c, s, if known then Releasing(Profile) else Enqueueing(Failed));
    case AckMessage(generation, sequence, frame) => t := MovingReaderKeeps(c, s, Enqueueing(Ack(generation, sequence, frame)));
    case HarmlessMessage => t := MovingReaderKeeps(c, s, Enqueueing(Harmless));
    case CloseMessage =>
      var released := ReleaseKeeps(c, s, k.release);
      t := MovingReaderKeeps(c, released, Enqueueing(Goodbye));
    case UnexpectedMessage => t := MovingReaderKeeps(c, s, Enqueueing(Failed));
  }

  lemma ReceivingKeeps(c: Config, s: State, k: ReaderChoice) returns (t: State)
    requires Attached(c) && Inv(c, s) && s.reader.pc.Receiving? && s.toHost != []
    ensures t == Read(c, s.(toHost := s.toHost[1..]), s.toHost[0], k) && Inv(c, t)
  {
    assert AimOk(s.past.chosen, s.toHost[0]);
    assert AimsOk(s.past.chosen, s.toHost[1..]);
    t := ReadKeeps(c, s.(toHost := s.toHost[1..]), s.toHost[0], k);
  }

  lemma ReleasingKeeps(c: Config, s: State, k: ReaderChoice) returns (t: State)
    requires Inv(c, s) && s.reader.pc.Releasing?
    ensures t == ReaderAt(Release(s, k.release).0, if Release(s, k.release).1 then Zeroing(s.reader.pc.next) else Enqueueing(Failed))
    ensures Inv(c, t)
  {
    var released := ReleaseKeeps(c, s, k.release);
    t := MovingReaderKeeps(c, released, if Release(s, k.release).1 then Zeroing(s.reader.pc.next) else Enqueueing(Failed));
  }

  lemma ZeroingKeeps(c: Config, s: State) returns (t: State)
    requires Inv(c, s) && s.reader.pc.Zeroing?
    ensures t == ReaderAt(s, Enqueueing(s.reader.pc.next)).(target := s.target.(generation := 0)) && Inv(c, t)
  {
    t := ReaderAt(s, Enqueueing(s.reader.pc.next)).(target := s.target.(generation := 0));
  }

  lemma PendingSurvives(host: Host, commands: seq<Command>, command: Command)
    requires Pending(host, commands) || Switches(command)
    ensures Pending(host, commands + [command])
  {
    if i: int :| 0 <= i < |commands| && Switches(commands[i]) {
      assert (commands + [command])[i] == commands[i];
    }
    assert (commands + [command])[|commands|] == command;
  }

  lemma EnqueueKeeps(c: Config, s: State) returns (t: State)
    requires Inv(c, s) && s.reader.pc.Enqueueing?
    ensures t == Enqueue(s, s.reader.pc.next) && Inv(c, t)
  {
    t := Enqueue(s, s.reader.pc.next);
    if s.live && s.target.generation == 0 { PendingSurvives(s.host, s.commands, s.reader.pc.next); }
  }

  lemma LeavingKeeps(c: Config, s: State, k: ReaderChoice) returns (t: State)
    requires Inv(c, s) && s.reader.pc.Leaving?
    ensures t == ReaderAt(Release(s, k.release).0, ReaderEnded) && Inv(c, t)
  {
    var released := ReleaseKeeps(c, s, k.release);
    t := MovingReaderKeeps(c, released, ReaderEnded);
  }

  lemma ReaderStepKeeps(c: Config, s: State, k: ReaderChoice) returns (t: State)
    requires Attached(c) && Inv(c, s)
    ensures t == ReaderStep(c, s, k) && Inv(c, t)
  {
    t := s;
    match s.reader.pc
    case Receiving =>
      if !s.live {
        t := MovingReaderKeeps(c, s, Leaving);
      } else if k.fails {
        t := MovingReaderKeeps(c, s, Enqueueing(Failed));
      } else if s.toHost != [] {
        t := ReceivingKeeps(c, s, k);
      }
    case Releasing(_) => t := ReleasingKeeps(c, s, k);
    case Zeroing(_) => t := ZeroingKeeps(c, s);
    case Enqueueing(_) => t := EnqueueKeeps(c, s);
    case Leaving => t := LeavingKeeps(c, s, k);
    case ReaderEnded =>
  }

  // The viewer

  lemma PipeTakesFirst(seen: nat, toViewer: seq<HostMessage>, announced: nat)
    requires PipeOk(seen, toViewer, announced) && toViewer != []
    ensures Follows(toViewer[0], seen) && PipeOk(Generation(toViewer[0]), toViewer[1..], announced)
  {
    assert FollowsAt(seen, toViewer, 0);
    forall i | 0 <= i < |toViewer| - 1 ensures FollowsAt(Generation(toViewer[0]), toViewer[1..], i) {
      assert FollowsAt(seen, toViewer, i + 1);
    }
  }

  lemma ViewerReceivesKeeps(c: Config, s: State) returns (t: State)
    requires Inv(c, s) && s.toViewer != []
    ensures t == ViewerStep(s, Receive) && Inv(c, t)
  {
    t := ViewerStep(s, Receive);
    PipeTakesFirst(Seen(s.viewer.format), s.toViewer, s.past.announced);
    assert Tells(s.past.chosen, s.toViewer[0]);
  }

  lemma ViewerSendsKeeps(c: Config, s: State, m: ViewerMessage) returns (t: State)
    requires Inv(c, s) && AimOk(s.past.chosen, m)
    ensures t == s.(toHost := s.toHost + [m]) && Inv(c, t)
  {
    t := s.(toHost := s.toHost + [m]);
  }

  lemma ViewerStepKeeps(c: Config, s: State, k: ViewerChoice) returns (t: State)
    requires Inv(c, s)
    ensures t == ViewerStep(s, k) && Inv(c, t)
  {
    t := ViewerStep(s, k);
    match k
    case Receive => if s.toViewer != [] { t := ViewerReceivesKeeps(c, s); }
    case ShowFormat => if s.viewer.events != [] { assert Told(s.past.chosen, s.viewer.events[0]); }
    case UserInput(event) =>
      if s.viewer.ui.Some? {
        t := ViewerSendsKeeps(c, s, InputMessage(s.viewer.ui.value.generation, event, Some(s.viewer.ui.value.display)));
      }
    case Anything(message) => t := ViewerSendsKeeps(c, s, Forget(message));
  }

  lemma NextKeeps(c: Config, s: State, e: Event)
    requires Attached(c) && Inv(c, s)
    ensures Inv(c, Next(c, s, e))
  {
    match e
    case HostMoves(k) => HostStepKeeps(c, s, k);
    case ReaderMoves(k) => var _ := ReaderStepKeeps(c, s, k);
    case ViewerMoves(k) => var _ := ViewerStepKeeps(c, s, k);
  }

  // -----------------------------------------------------------------------------------------------------------------
  // Whole sessions
  // -----------------------------------------------------------------------------------------------------------------

  lemma {:induction false} RunKeeps(c: Config, s: State, events: seq<Event>)
    requires Attached(c) && Inv(c, s)
    ensures Inv(c, Run(c, s, events))
    decreases |events|
  {
    if events != [] {
      NextKeeps(c, s, events[0]);
      RunKeeps(c, Next(c, s, events[0]), events[1..]);
    }
  }

  /**
   In every interleaving, against any viewer: an injected input carries a generation, was valid on that generation's
   display and, from an honest viewer, was meant for it; and injections never go back to an older generation.
   */
  lemma InputHitsItsDisplay(c: Config, s: State, events: seq<Event>, i: nat)
    requires Attached(c) && Initial(c, s) && i < |Run(c, s, events).past.log|
    ensures var past := Run(c, s, events).past;
            var e := past.log[i];
            && c.mayInput && 0 < e.generation <= |past.chosen| && e.display == past.chosen[e.generation - 1]
            && e.display in c.displays && Valid(e.event, e.display)
            && (e.meant.Some? ==> e.meant.value == e.display)
            && (0 < i ==> past.log[i - 1].generation <= e.generation)
  {
    InitialInv(c, s);
    RunKeeps(c, s, events);
    ChosenAreAttached(c, s, events);
    var past := Run(c, s, events).past;
    assert Faithful(c, past.chosen, past.log[i]);
  }

  lemma {:induction false} ChosenAreAttached(c: Config, s: State, events: seq<Event>)
    requires Attached(c) && Inv(c, s) && (forall d | d in s.past.chosen :: d in c.displays)
    ensures forall d | d in Run(c, s, events).past.chosen :: d in c.displays
    decreases |events|
  {
    if events != [] {
      NextKeeps(c, s, events[0]);
      OnlyGrows(c, s, events[0]);
      ChosenAreAttached(c, Next(c, s, events[0]), events[1..]);
    }
  }

  /** Before the first injection under a generation everything held under older ones was lifted, unless a release was refused. */
  lemma OldHoldsAreLifted(c: Config, s: State, events: seq<Event>, i: nat)
    requires Attached(c) && Initial(c, s) && i < |Run(c, s, events).past.log| && !Run(c, s, events).past.refused
    requires i == 0 || Run(c, s, events).past.log[i - 1].generation < Run(c, s, events).past.log[i].generation
    ensures Run(c, s, events).past.log[i].before == {}
  {
    InitialInv(c, s);
    RunKeeps(c, s, events);
    assert StartsClean(Run(c, s, events).past.log, i);
  }

  /** An honest acknowledgement is counted only for a picture of the generation being streamed. */
  lemma AcksCountTheirOwnGeneration(c: Config, s: State, events: seq<Event>, i: nat)
    requires Attached(c) && Initial(c, s) && i < |Run(c, s, events).past.counted|
    ensures var (generation, frame) := Run(c, s, events).past.counted[i];
            frame.Some? ==> frame.value == generation
  {
    InitialInv(c, s);
    RunKeeps(c, s, events);
  }

  /** An input that carries the current generation and is valid for its display does get through, if the system takes it. */
  lemma CurrentInputIsInjected(c: Config, s: State, k: ReaderChoice)
    requires s.reader.pc.Receiving? && s.live && !k.fails && s.toHost != [] && s.toHost[0].InputMessage?
    requires s.target.generation != 0 && s.toHost[0].generation == s.target.generation
    requires c.mayInput && Valid(s.toHost[0].event, s.target.display) && !s.toHost[0].event.ReleaseAll?
    requires k.apply.interactive && k.apply.screen.width > 1 && k.apply.screen.height > 1
    requires k.apply.accepts >= |Events(s.toHost[0].event, s.target.display, k.apply.screen)|
    ensures var t, m := ReaderStep(c, s, k), s.toHost[0];
            && t.reader.pc.Receiving? && t.reader.injected == s.target.generation
            && |t.past.log| == |s.past.log| + 1
            && t.past.log[|s.past.log|].(before := {}) == Injected(m.generation, s.target.display, m.event, m.meant, {})
  {
    EventCount(s.toHost[0].event, s.target.display, k.apply.screen);
  }

  lemma EventCount(e: Input, d: Display, screen: Screen)
    requires screen.width > 1 && screen.height > 1
    ensures |Events(e, d, screen)| == |Events(e, d, Screen(0, 0, 2, 2))|
  {
  }

  predicate Extends(a: State, b: State) {
    && a.past.chosen <= b.past.chosen && a.past.log <= b.past.log
    && a.host.generation <= b.host.generation && a.reader.injected <= b.reader.injected
    && (b.target.generation != 0 ==> a.target.generation <= b.target.generation)
  }

  /** Generations only grow, and what a generation means never changes. */
  lemma OnlyGrows(c: Config, s: State, e: Event)
    requires Attached(c) && Inv(c, s)
    ensures Extends(s, Next(c, s, e))
    ensures forall d | d in Next(c, s, e).past.chosen :: d in s.past.chosen || d in c.displays
  {
    match e
    case HostMoves(k) => HostOnlyGrows(c, s, k);
    case ReaderMoves(k) => ReaderOnlyGrows(c, s, k);
    case ViewerMoves(k) => ViewerOnlyGrows(s, k);
  }

  lemma HostOnlyGrows(c: Config, s: State, k: HostChoice)
    requires HostOk(c, s.host, s.target, s.past.chosen)
    ensures Extends(s, HostStep(c, s, k))
    ensures forall d | d in HostStep(c, s, k).past.chosen :: d in s.past.chosen || d in c.displays
  {
    match s.host.pc
    case Draining(left) => if left > 0 && s.commands != [] { HandleOnlyGrows(c, s, left, k.fails); }
    case _ =>
  }

  lemma HandleOnlyGrows(c: Config, s: State, left: nat, fails: bool)
    requires left > 0 && s.commands != []
    ensures var t := Drain(c, s, left, fails);
            && t.past.chosen == s.past.chosen && t.past.log == s.past.log && t.host.generation == s.host.generation
            && t.reader == s.reader && t.target == s.target
  {
  }

  lemma ReaderOnlyGrows(c: Config, s: State, k: ReaderChoice)
    requires GenerationsOk(s.past.log, s.reader.injected, s.target.generation, |s.past.chosen|)
    ensures Extends(s, ReaderStep(c, s, k)) && ReaderStep(c, s, k).past.chosen == s.past.chosen
  {
    if s.reader.pc.Receiving? && s.live && !k.fails && s.toHost != [] {
      ReadOnlyGrows(c, s.(toHost := s.toHost[1..]), s.toHost[0], k);
    }
  }

  lemma ReadOnlyGrows(c: Config, s: State, m: ViewerMessage, k: ReaderChoice)
    requires GenerationsOk(s.past.log, s.reader.injected, s.target.generation, |s.past.chosen|)
    ensures Extends(s, Read(c, s, m, k)) && Read(c, s, m, k).past.chosen == s.past.chosen
  {
  }

  lemma ViewerOnlyGrows(s: State, k: ViewerChoice)
    ensures Extends(s, ViewerStep(s, k)) && ViewerStep(s, k).past == s.past
  {
  }

  /** Only the host gives the target a generation, and always its own. */
  lemma TargetIsTheHosts(c: Config, s: State, e: Event)
    ensures var t := Next(c, s, e); t.target.generation == 0 || t.target.generation == s.target.generation || t.target.generation == s.host.generation
  {
    match e
    case HostMoves(k) => if s.host.pc.Draining? && s.host.pc.left > 0 && s.commands != [] { HandleOnlyGrows(c, s, s.host.pc.left, k.fails); }
    case ReaderMoves(k) =>
      if s.reader.pc.Receiving? && s.live && !k.fails && s.toHost != [] { ReadLeavesTarget(c, s.(toHost := s.toHost[1..]), s.toHost[0], k); }
    case ViewerMoves(k) =>
  }

  lemma ReadLeavesTarget(c: Config, s: State, m: ViewerMessage, k: ReaderChoice)
    ensures Read(c, s, m, k).target == s.target
  {
  }

  /** The target is disabled or under a generation that is no older than a given one. */
  predicate NoOlder(s: State, floor: nat) {
    floor <= s.host.generation && (s.target.generation == 0 || floor <= s.target.generation)
  }

  lemma {:induction false} TargetStaysUp(c: Config, s: State, floor: nat, events: seq<Event>)
    requires Attached(c) && Inv(c, s) && NoOlder(s, floor)
    ensures NoOlder(Run(c, s, events), floor)
    decreases |events|
  {
    if events != [] {
      var t := Next(c, s, events[0]);
      NextKeeps(c, s, events[0]);
      OnlyGrows(c, s, events[0]);
      TargetIsTheHosts(c, s, events[0]);
      TargetStaysUp(c, t, floor, events[1..]);
    }
  }

  /** What only grows over any number of steps. */
  predicate Later(a: State, b: State) {
    && a.past.chosen <= b.past.chosen && a.past.log <= b.past.log
    && a.host.generation <= b.host.generation && a.reader.injected <= b.reader.injected
  }

  lemma {:induction false} RunOnlyGrows(c: Config, s: State, events: seq<Event>)
    requires Attached(c) && Inv(c, s)
    ensures Later(s, Run(c, s, events))
    decreases |events|
  {
    if events != [] {
      NextKeeps(c, s, events[0]);
      OnlyGrows(c, s, events[0]);
      RunOnlyGrows(c, Next(c, s, events[0]), events[1..]);
    }
  }

  /** Over any part of any run: what a generation means, and what was injected, stays; and the target never goes back. */
  lemma GenerationsNeverGoBack(c: Config, start: State, before: seq<Event>, after: seq<Event>)
    requires Attached(c) && Initial(c, start)
    ensures var s := Run(c, start, before);
            var t := Run(c, s, after);
            && s.past.chosen <= t.past.chosen && s.past.log <= t.past.log
            && s.host.generation <= t.host.generation && s.reader.injected <= t.reader.injected
            && (t.target.generation != 0 ==> s.target.generation <= t.target.generation)
  {
    InitialInv(c, start);
    RunKeeps(c, start, before);
    var s := Run(c, start, before);
    RunOnlyGrows(c, s, after);
    TargetStaysUp(c, s, s.target.generation, after);
  }

  // -----------------------------------------------------------------------------------------------------------------
  // Which display a request leads to
  // -----------------------------------------------------------------------------------------------------------------

  /** The display an event asks for: a selection its own, a change of profile and a fall back the one that is streamed. */
  function Asks(c: Config, s: State, e: Event): Option<Display> {
    if !e.HostMoves? then None
    else
      match s.host.pc
      case Draining(left) =>
        if left == 0 || s.commands == [] then None
        else
          (match s.commands[0]
           case Select(i) => if i < |c.displays| then Some(c.displays[i]) else None
           case Profile => Some(s.host.display)
           case _ => None)
      case Working => if e.host.fallsBack && !e.host.fails then Some(s.host.display) else None
      case _ => None
  }

  predicate Decides(s: State, e: Event) { e.HostMoves? && s.host.pc.Deciding? }

  /** What was asked for last and has not been decided on. */
  function Asked(c: Config, s: State, events: seq<Event>, before: Option<Display>): Option<Display>
    decreases |events|
  {
    if events == [] then before
    else
      var e := events[0];
      var now := if Asks(c, s, e).Some? then Asks(c, s, e) else if Decides(s, e) then None else before;
      Asked(c, Next(c, s, e), events[1..], now)
  }

  /** The host remembers the index of what was asked for last. */
  ghost predicate Remembers(c: Config, host: Host, wish: Option<Display>) {
    host.pc.HostEnded?
    || (if wish.None? then host.reconfigure.None?
        else host.reconfigure.Some? && host.reconfigure.value < |c.displays| && c.displays[host.reconfigure.value] == wish.value)
  }

  lemma OwnDisplay(c: Config, d: Display)
    requires Attached(c) && d in c.displays
    ensures d.index < |c.displays| && c.displays[d.index] == d
  {
  }

  lemma DrainRemembers(c: Config, s: State, fails: bool, wish: Option<Display>)
    requires Attached(c) && HostOk(c, s.host, s.target, s.past.chosen) && s.host.pc.Draining? && Remembers(c, s.host, wish)
    ensures var e := HostMoves(HostChoice(fails, false, false, []));
            Remembers(c, Drain(c, s, s.host.pc.left, fails).host, if Asks(c, s, e).Some? then Asks(c, s, e) else wish)
  {
    OwnDisplay(c, s.host.display);
  }

  lemma HostRemembers(c: Config, s: State, k: HostChoice, wish: Option<Display>)
    requires Attached(c) && HostOk(c, s.host, s.target, s.past.chosen) && Remembers(c, s.host, wish)
    ensures var e := HostMoves(k);
            Remembers(c, HostStep(c, s, k).host, if Asks(c, s, e).Some? then Asks(c, s, e) else if Decides(s, e) then None else wish)
  {
    OwnDisplay(c, s.host.display);
    if s.host.pc.Draining? { DrainRemembers(c, s, k.fails, wish); }
  }

  lemma OthersLeaveHost(c: Config, s: State, e: Event)
    requires !e.HostMoves?
    ensures Next(c, s, e).host == s.host
  {
  }

  lemma {:induction false} RunRemembers(c: Config, s: State, events: seq<Event>, wish: Option<Display>)
    requires Attached(c) && Inv(c, s) && Remembers(c, s.host, wish)
    ensures Remembers(c, Run(c, s, events).host, Asked(c, s, events, wish))
    decreases |events|
  {
    if events != [] {
      var e := events[0];
      NextKeeps(c, s, e);
      if e.HostMoves? { HostRemembers(c, s, e.host, wish); } else { OthersLeaveHost(c, s, e); }
      var now := if Asks(c, s, e).Some? then Asks(c, s, e) else if Decides(s, e) then None else wish;
      RunRemembers(c, Next(c, s, e), events[1..], now);
    }
  }

  lemma DecidingFollows(c: Config, s: State, k: HostChoice, wish: Option<Display>)
    requires Attached(c) && HostOk(c, s.host, s.target, s.past.chosen) && s.host.pc.Deciding? && !k.fails && Remembers(c, s.host, wish)
    ensures var t, wanted := Decide(c, s, k), if k.adapts then Some(s.host.display) else wish;
            && t.past.chosen == s.past.chosen + (if wanted.Some? then [wanted.value] else [])
            && t.host.display == (if wanted.Some? then wanted.value else s.host.display)
  {
    OwnDisplay(c, s.host.display);
    assert s.past.chosen + [] == s.past.chosen;
  }

  /**
   In every run: a decision of the host begins a generation if and only if something was asked for or the controller adapts,
   and its display is the one asked for last; but an adaptation keeps the display, and drops what was asked for.
   */
  lemma DisplaysFollowRequests(c: Config, start: State, before: seq<Event>, k: HostChoice)
    requires Attached(c) && Initial(c, start) && Run(c, start, before).host.pc.Deciding? && !k.fails
    ensures var s := Run(c, start, before);
            var t := Next(c, s, HostMoves(k));
            var wanted := if k.adapts then Some(s.host.display) else Asked(c, start, before, None);
            && t.past.chosen == s.past.chosen + (if wanted.Some? then [wanted.value] else [])
            && t.host.display == (if wanted.Some? then wanted.value else s.host.display)
  {
    InitialInv(c, start);
    RunKeeps(c, start, before);
    RunRemembers(c, start, before, None);
    DecidingFollows(c, Run(c, start, before), k, Asked(c, start, before, None));
  }

  /** Nothing else is asked for, and nothing decided. */
  predicate Undecided(c: Config, s: State, events: seq<Event>)
    decreases |events|
  {
    events == [] || (Asks(c, s, events[0]).None? && !Decides(s, events[0]) && Undecided(c, Next(c, s, events[0]), events[1..]))
  }

  lemma {:induction false} UndecidedRemembers(c: Config, s: State, events: seq<Event>, wish: Option<Display>)
    requires Undecided(c, s, events)
    ensures Asked(c, s, events, wish) == wish
    decreases |events|
  {
    if events != [] { UndecidedRemembers(c, Next(c, s, events[0]), events[1..], wish); }
  }

  /** The host takes this command off its queue. */
  predicate TakesOff(s: State, e: Event, command: Command) {
    e.HostMoves? && s.host.pc.Draining? && s.host.pc.left > 0 && s.commands != [] && s.commands[0] == command
  }

  /** Every format that reaches the viewer, or is on its way, and the target, if they are of that generation, are of that display. */
  ghost predicate Shows(s: State, generation: nat, display: Display) {
    && (forall i | 0 <= i < |s.toViewer| && s.toViewer[i].Format? && s.toViewer[i].generation == generation :: s.toViewer[i].display == display)
    && (s.viewer.format.Some? && s.viewer.format.value.generation == generation ==> s.viewer.format.value.display == display)
    && (s.target.generation == generation ==> s.target.display == display)
  }

  lemma ChosenShows(c: Config, s: State, generation: nat)
    requires Inv(c, s) && 0 < generation <= |s.past.chosen|
    ensures Shows(s, generation, s.past.chosen[generation - 1])
  {
    forall i | 0 <= i < |s.toViewer| && s.toViewer[i].Format? && s.toViewer[i].generation == generation
      ensures s.toViewer[i].display == s.past.chosen[generation - 1]
    {
      assert Tells(s.past.chosen, s.toViewer[i]);
    }
  }

  /** What the host streams, or is about to announce, after a command was taken off: a selection's display, or the same again. */
  function Requested(c: Config, s: State, command: Command): Display
    requires command.Select? ==> command.index < |c.displays|
  {
    if command.Select? then c.displays[command.index] else s.host.display
  }

  lemma TakingRemembers(c: Config, s: State, taking: Event, command: Command)
    requires Attached(c) && HostOk(c, s.host, s.target, s.past.chosen) && TakesOff(s, taking, command)
    requires Switches(command) && CommandOk(c, command)
    ensures Remembers(c, Next(c, s, taking).host, Some(Requested(c, s, command))) && Next(c, s, taking).past.chosen == s.past.chosen
  {
    OwnDisplay(c, s.host.display);
  }

  lemma {:induction false} UndecidedChoosesNothing(c: Config, s: State, events: seq<Event>)
    requires Undecided(c, s, events)
    ensures Run(c, s, events).past.chosen == s.past.chosen
    decreases |events|
  {
    if events != [] {
      OnlyDecidingChooses(c, s, events[0]);
      UndecidedChoosesNothing(c, Next(c, s, events[0]), events[1..]);
    }
  }

  lemma TakenIsDecided(c: Config, s: State, taking: Event, command: Command, between: seq<Event>, k: HostChoice)
    returns (display: Display, t: State)
    requires Attached(c) && Inv(c, s) && Switches(command) && TakesOff(s, taking, command) && CommandOk(c, command)
    requires Undecided(c, Next(c, s, taking), between) && Run(c, Next(c, s, taking), between).host.pc.Deciding?
    requires !k.fails && !k.adapts
    ensures display == Requested(c, s, command) && t == Next(c, Run(c, Next(c, s, taking), between), HostMoves(k))
    ensures Inv(c, t) && t.host.display == display && t.past.chosen == s.past.chosen + [display]
  {
    display := Requested(c, s, command);
    var taken := Next(c, s, taking);
    NextKeeps(c, s, taking);
    TakingRemembers(c, s, taking, command);
    t := RememberedIsDecided(c, taken, between, k, display);
  }

  lemma RememberedIsDecided(c: Config, s: State, between: seq<Event>, k: HostChoice, display: Display) returns (t: State)
    requires Attached(c) && Inv(c, s) && Remembers(c, s.host, Some(display)) && Undecided(c, s, between)
    requires Run(c, s, between).host.pc.Deciding? && !k.fails && !k.adapts
    ensures t == Next(c, Run(c, s, between), HostMoves(k))
    ensures Inv(c, t) && t.host.display == display && t.past.chosen == s.past.chosen + [display]
  {
    RunKeeps(c, s, between);
    RunRemembers(c, s, between, Some(display));
    UndecidedRemembers(c, s, between, Some(display));
    UndecidedChoosesNothing(c, s, between);
    var d := Run(c, s, between);
    DecidingFollows(c, d, k, Some(display));
    NextKeeps(c, d, HostMoves(k));
    t := Next(c, d, HostMoves(k));
  }

  lemma LaterShows(c: Config, t: State, after: seq<Event>, display: Display) returns (u: State)
    requires Attached(c) && Inv(c, t) && t.past.chosen != [] && t.past.chosen[|t.past.chosen| - 1] == display
    ensures u == Run(c, t, after) && Shows(u, |t.past.chosen|, display)
  {
    u := Run(c, t, after);
    RunKeeps(c, t, after);
    RunOnlyGrows(c, t, after);
    ChosenShows(c, u, |t.past.chosen|);
  }

  /**
   A selection or change of profile taken off the queue, followed by a decision before anything else is asked for: if the
   decision neither fails nor adapts, the next generation is of the selected display, or of the same again. Ever after, in any
   run, whatever is announced or installed under that generation is of that display.
   */
  lemma SelectionLeadsToItsDisplay(c: Config, start: State, before: seq<Event>, taking: Event, command: Command, between: seq<Event>,
                                   k: HostChoice, after: seq<Event>)
    returns (display: Display, t: State, u: State)
    requires Attached(c) && Initial(c, start) && Switches(command)
    requires var s := Run(c, start, before);
             TakesOff(s, taking, command) && Undecided(c, Next(c, s, taking), between)
             && Run(c, Next(c, s, taking), between).host.pc.Deciding?
    requires !k.fails && !k.adapts
    ensures var s := Run(c, start, before);
            && (command.Select? ==> command.index < |c.displays|) && display == Requested(c, s, command)
            && t == Next(c, Run(c, Next(c, s, taking), between), HostMoves(k))
    ensures t.host.display == display && t.past.chosen == Run(c, start, before).past.chosen + [display]
    ensures u == Run(c, t, after) && Shows(u, |t.past.chosen|, display)
  {
    InitialInv(c, start);
    RunKeeps(c, start, before);
    assert CommandOk(c, Run(c, start, before).commands[0]);
    display, t := TakenIsDecided(c, Run(c, start, before), taking, command, between, k);
    u := LaterShows(c, t, after, display);
  }

  lemma OnlyDecidingChooses(c: Config, s: State, e: Event)
    requires !Decides(s, e)
    ensures Next(c, s, e).past.chosen == s.past.chosen
  {
    match e
    case HostMoves(k) => if s.host.pc.Draining? && s.host.pc.left > 0 && s.commands != [] { HandleOnlyGrows(c, s, s.host.pc.left, k.fails); }
    case ReaderMoves(k) =>
    case ViewerMoves(k) =>
  }

  // -----------------------------------------------------------------------------------------------------------------
  // The viewer's requests arrive, in order
  // -----------------------------------------------------------------------------------------------------------------

  /** What a message of the viewer asks the host loop to do. */
  function RequestOf(c: Config, m: ViewerMessage): Option<Command> {
    match m
    case SelectMessage(index) => if exists d :: d in c.displays && d.index == index then Some(Select(index)) else None
    case ProfileMessage => Some(Profile)
    case AckMessage(generation, sequence, frame) => Some(Ack(generation, sequence, frame))
    case HarmlessMessage => Some(Harmless)
    case CloseMessage => Some(Goodbye)
    case _ => None
  }

  predicate Reads(s: State, e: Event) { e.ReaderMoves? && s.reader.pc.Receiving? && s.live && !e.reader.fails && s.toHost != [] }

  function ReadBy(c: Config, s: State, e: Event): seq<Command> {
    if Reads(s, e) && RequestOf(c, s.toHost[0]).Some? then [RequestOf(c, s.toHost[0]).value] else []
  }

  function TakenBy(s: State, e: Event): seq<Command> {
    if e.HostMoves? && s.host.pc.Draining? && s.host.pc.left > 0 && s.commands != [] then [s.commands[0]] else []
  }

  /** The requests read from the connection in a run, and the commands that the host took off the queue. */
  function Requests(c: Config, s: State, events: seq<Event>): seq<Command>
    decreases |events|
  {
    if events == [] then [] else ReadBy(c, s, events[0]) + Requests(c, Next(c, s, events[0]), events[1..])
  }

  function Taken(c: Config, s: State, events: seq<Event>): seq<Command>
    decreases |events|
  {
    if events == [] then [] else TakenBy(s, events[0]) + Taken(c, Next(c, s, events[0]), events[1..])
  }

  /** A beginning of the requests, with a failure behind it at most. */
  predicate Beginning(queued: seq<Command>, requests: seq<Command>) {
    queued <= requests || (queued != [] && queued[|queued| - 1].Failed? && queued[..|queued| - 1] <= requests)
  }

  /** Where the last request is while the reader passes it on. */
  predicate InHand(pc: ReaderPc, queued: seq<Command>, requests: seq<Command>) {
    match pc
    case Receiving => queued == requests
    case Releasing(next) => queued + [next] == requests
    case Zeroing(next) => queued + [next] == requests
    case Enqueueing(next) => if next.Failed? then queued <= requests else queued + [next] == requests
    case Leaving => Beginning(queued, requests)
    case ReaderEnded => Beginning(queued, requests)
  }

  lemma ReadInHand(c: Config, s: State, k: ReaderChoice, queued: seq<Command>, requests: seq<Command>)
    requires Attached(c) && s.target.display in c.displays && Reads(s, ReaderMoves(k)) && queued == requests
    ensures InHand(ReaderStep(c, s, k).reader.pc, queued, requests + ReadBy(c, s, ReaderMoves(k)))
    ensures ReaderStep(c, s, k).commands == s.commands
  {
    assert requests + [] == requests;
  }

  lemma EnqueueInHand(s: State, queued: seq<Command>, requests: seq<Command>)
    requires s.reader.pc.Enqueueing? && InHand(s.reader.pc, queued, requests)
    ensures var t := Enqueue(s, s.reader.pc.next);
            || (t.commands == s.commands && InHand(t.reader.pc, queued, requests))
            || (t.commands == s.commands + [s.reader.pc.next] && InHand(t.reader.pc, queued + [s.reader.pc.next], requests))
  {
    var next := s.reader.pc.next;
    assert (queued + [next])[..|queued|] == queued;
  }

  lemma PassedOn(c: Config, s: State, k: ReaderChoice, taken: seq<Command>, requests: seq<Command>)
    requires Attached(c) && s.target.display in c.displays && InHand(s.reader.pc, taken + s.commands, requests)
    ensures var t := ReaderStep(c, s, k);
            InHand(t.reader.pc, taken + t.commands, requests + ReadBy(c, s, ReaderMoves(k)))
  {
    assert requests + [] == requests;
    if Reads(s, ReaderMoves(k)) {
      ReadInHand(c, s, k, taken + s.commands, requests);
    } else if s.reader.pc.Enqueueing? {
      EnqueueInHand(s, taken + s.commands, requests);
      assert taken + (s.commands + [s.reader.pc.next]) == taken + s.commands + [s.reader.pc.next];
    }
  }

  lemma TakenOff(c: Config, s: State, k: HostChoice, taken: seq<Command>)
    ensures var t := HostStep(c, s, k); taken + TakenBy(s, HostMoves(k)) + t.commands == taken + s.commands && t.reader == s.reader
  {
    if TakenBy(s, HostMoves(k)) != [] {
      assert s.commands == [s.commands[0]] + s.commands[1..];
      HandleLeavesQueue(c, s.(commands := s.commands[1..]), s.commands[0], Draining(s.host.pc.left - 1), k.fails);
    } else {
      assert taken + [] == taken;
    }
  }

  lemma HandleLeavesQueue(c: Config, s: State, command: Command, next: HostPc, fails: bool)
    ensures var t := Handle(c, s, command, next, fails); t.commands == s.commands && t.reader == s.reader
  {
  }

  lemma EventPassesOn(c: Config, s: State, e: Event, taken: seq<Command>, requests: seq<Command>)
    requires Attached(c) && s.target.display in c.displays && InHand(s.reader.pc, taken + s.commands, requests)
    ensures var t := Next(c, s, e);
            InHand(t.reader.pc, taken + TakenBy(s, e) + t.commands, requests + ReadBy(c, s, e))
  {
    assert requests + [] == requests && taken + [] == taken;
    match e
    case HostMoves(k) => TakenOff(c, s, k, taken);
    case ReaderMoves(k) => PassedOn(c, s, k, taken, requests);
    case ViewerMoves(k) =>
  }

  lemma FirstPassesOn(c: Config, s: State, events: seq<Event>, taken: seq<Command>, requests: seq<Command>)
    returns (t: State, off: seq<Command>, asked: seq<Command>)
    requires Attached(c) && Inv(c, s) && InHand(s.reader.pc, taken + s.commands, requests) && events != []
    ensures Inv(c, t) && Run(c, s, events) == Run(c, t, events[1..])
    ensures Taken(c, s, events) == off + Taken(c, t, events[1..]) && Requests(c, s, events) == asked + Requests(c, t, events[1..])
    ensures InHand(t.reader.pc, taken + off + t.commands, requests + asked)
  {
    t, off, asked := Next(c, s, events[0]), TakenBy(s, events[0]), ReadBy(c, s, events[0]);
    NextKeeps(c, s, events[0]);
    EventPassesOn(c, s, events[0], taken, requests);
  }

  lemma Regroup(a: seq<Command>, b: seq<Command>, c: seq<Command>)
    ensures a + (b + c) == a + b + c && a + [] == a
  {
  }

  lemma {:induction false} RunPassesOn(c: Config, s: State, events: seq<Event>, taken: seq<Command>, requests: seq<Command>)
    requires Attached(c) && Inv(c, s) && InHand(s.reader.pc, taken + s.commands, requests)
    ensures var t := Run(c, s, events);
            InHand(t.reader.pc, taken + Taken(c, s, events) + t.commands, requests + Requests(c, s, events))
    decreases |events|
  {
    if events == [] {
      Regroup(taken, [], []);
      Regroup(requests, [], []);
    } else {
      var t, off, asked := FirstPassesOn(c, s, events, taken, requests);
      RunPassesOn(c, t, events[1..], taken + off, requests + asked);
      Regroup(taken, off, Taken(c, t, events[1..]));
      Regroup(requests, asked, Requests(c, t, events[1..]));
    }
  }

  /**
   In every run: what the host has taken off its queue and what is still there are the viewer's requests in the order in which
   they were read; all of them while the reader waits for the next, and nothing but a failure behind them in the end.
   */
  lemma RequestsArriveInOrder(c: Config, start: State, events: seq<Event>)
    requires Attached(c) && Initial(c, start)
    ensures var t, requests := Run(c, start, events), Requests(c, start, events);
            var queued := Taken(c, start, events) + t.commands;
            && Beginning(queued, requests) && (t.reader.pc.Receiving? ==> queued == requests)
  {
    InitialInv(c, start);
    var none: seq<Command> := [];
    assert none + start.commands == none;
    RunPassesOn(c, start, events, none, none);
    assert none + Taken(c, start, events) == Taken(c, start, events) && none + Requests(c, start, events) == Requests(c, start, events);
    BeginningOf(Run(c, start, events).reader.pc, Taken(c, start, events) + Run(c, start, events).commands, Requests(c, start, events));
  }

  lemma BeginningOf(pc: ReaderPc, queued: seq<Command>, requests: seq<Command>)
    requires InHand(pc, queued, requests)
    ensures Beginning(queued, requests) && (pc.Receiving? ==> queued == requests)
  {
  }

  /** Nothing is left down while the reader passes on a switch, and after its end, unless a release was refused. */
  ghost predicate HandsOff(s: State) {
    (s.reader.pc.Zeroing? || BeingSent(s.reader.pc) || s.reader.pc.ReaderEnded?) && !s.past.refused ==> s.past.down == {}
  }

  lemma ReleaseLifts(c: Config, s: State, env: Env)
    requires Inv(c, s)
    ensures var t := Release(s, env).0; !t.past.refused ==> t.past.down == {}
  {
    var _ := ReleaseKeepsInjections(c, s, env);
  }

  lemma ReaderHandsOff(c: Config, s: State, k: ReaderChoice)
    requires Attached(c) && Inv(c, s) && HandsOff(s)
    ensures HandsOff(ReaderStep(c, s, k))
  {
    match s.reader.pc
    case Receiving =>
      if Reads(s, ReaderMoves(k)) { ReadingSwitchesNothing(c, s.(toHost := s.toHost[1..]), s.toHost[0], k); }
    case Enqueueing(_) =>
    case _ => ReleaseLifts(c, s, k.release);
  }

  lemma ReadingSwitchesNothing(c: Config, s: State, m: ViewerMessage, k: ReaderChoice)
    requires s.reader.pc.Receiving?
    ensures var pc := Read(c, s, m, k).reader.pc; !pc.Zeroing? && !BeingSent(pc) && !pc.ReaderEnded?
  {
  }

  lemma NextHandsOff(c: Config, s: State, e: Event)
    requires Attached(c) && Inv(c, s) && HandsOff(s)
    ensures HandsOff(Next(c, s, e))
  {
    match e
    case HostMoves(k) => HostTouchesNothing(c, s, k);
    case ReaderMoves(k) => ReaderHandsOff(c, s, k);
    case ViewerMoves(k) =>
  }

  lemma HostTouchesNothing(c: Config, s: State, k: HostChoice)
    ensures var t := HostStep(c, s, k); t.reader == s.reader && t.past.down == s.past.down && t.past.refused == s.past.refused
  {
    if s.host.pc.Draining? && s.host.pc.left > 0 && s.commands != [] {
      HandleTouchesNothing(c, s.(commands := s.commands[1..]), s.commands[0], Draining(s.host.pc.left - 1), k.fails);
    }
  }

  lemma HandleTouchesNothing(c: Config, s: State, command: Command, next: HostPc, fails: bool)
    ensures var t := Handle(c, s, command, next, fails); t.reader == s.reader && t.past.down == s.past.down && t.past.refused == s.past.refused
  {
  }

  lemma {:induction false} RunHandsOff(c: Config, s: State, events: seq<Event>)
    requires Attached(c) && Inv(c, s) && HandsOff(s)
    ensures HandsOff(Run(c, s, events))
    decreases |events|
  {
    if events != [] {
      NextKeeps(c, s, events[0]);
      NextHandsOff(c, s, events[0]);
      RunHandsOff(c, Next(c, s, events[0]), events[1..]);
    }
  }

  /** In every run: keys and buttons are up when a switch disables the target, and when the session is over. */
  lemma SwitchesAndEndsLiftEverything(c: Config, start: State, events: seq<Event>)
    requires Attached(c) && Initial(c, start)
    ensures var t := Run(c, start, events);
            (BeingSent(t.reader.pc) || t.reader.pc.ReaderEnded?) && !t.past.refused ==> t.past.down == {}
  {
    InitialInv(c, start);
    RunHandsOff(c, start, events);
  }

  /** An acknowledgement taken off the queue is counted if and only if it is for the generation that is streamed. */
  lemma CurrentAcksAreCounted(c: Config, s: State, e: Event, generation: nat, sequence: nat, frame: Option<nat>)
    requires TakesOff(s, e, Ack(generation, sequence, frame))
    ensures Next(c, s, e).past.counted == s.past.counted + if generation == s.host.generation then [(generation, frame)] else []
  {
    assert s.past.counted + [] == s.past.counted;
  }

  // -----------------------------------------------------------------------------------------------------------------
  // Input is never disabled for good
  // -----------------------------------------------------------------------------------------------------------------

  function FirstSwitch(commands: seq<Command>): nat {
    if commands == [] || Switches(commands[0]) then 0 else 1 + FirstSwitch(commands[1..])
  }

  /** A bound on the host steps before the pending switch gives the target a generation again. */
  function Rank(host: Host, commands: seq<Command>): nat {
    if host.pc.Installing? then 1
    else if host.pc.Announcing? then 2
    else if host.reconfigure.Some? then
      match host.pc
      case Deciding => 3
      case Draining(left) => 4 + left
      case LoopTop => 5 + DRAIN
      case _ => 6 + DRAIN
    else
      100 + 5 * FirstSwitch(commands) +
      match host.pc
      case Draining(left) => if left > 0 then 0 else 4
      case LoopTop => 1
      case Deciding => 3
      case _ => 2
  }

  predicate Running(s: State) { s.live && !s.host.pc.HostEnded? }

  lemma {:induction false} FirstSwitchIsThere(commands: seq<Command>, i: nat)
    requires i < |commands| && Switches(commands[i])
    ensures FirstSwitch(commands) <= i && Switches(commands[FirstSwitch(commands)])
  {
    if !Switches(commands[0]) { FirstSwitchIsThere(commands[1..], i - 1); }
  }

  lemma {:induction false} FirstSwitchStays(commands: seq<Command>, command: Command, i: nat)
    requires i < |commands| && Switches(commands[i])
    ensures FirstSwitch(commands + [command]) == FirstSwitch(commands)
  {
    assert (commands + [command])[0] == commands[0];
    if !Switches(commands[0]) {
      assert (commands + [command])[1..] == commands[1..] + [command];
      FirstSwitchStays(commands[1..], command, i - 1);
    }
  }

  lemma RankIsBounded(host: Host, commands: seq<Command>)
    requires Pending(host, commands) && |commands| <= QUEUE && (host.pc.Draining? ==> host.pc.left <= DRAIN)
    ensures Rank(host, commands) <= 419
  {
    if i: int :| 0 <= i < |commands| && Switches(commands[i]) { FirstSwitchIsThere(commands, i); }
  }

  lemma HostStepLowersRank(c: Config, s: State, k: HostChoice)
    requires Attached(c) && HostOk(c, s.host, s.target, s.past.chosen) && Running(s)
    requires s.target.generation == 0 && Pending(s.host, s.commands)
    ensures var t := HostStep(c, s, k);
            Running(t) && t.target.generation == 0 ==>
              Pending(t.host, t.commands) && Rank(t.host, t.commands) < Rank(s.host, s.commands)
  {
    if s.host.pc.Draining? && s.host.pc.left > 0 && s.commands != [] && !Switches(s.commands[0]) {
      TakingCommandKeepsPending(s.host, s.commands);
      DrainLowersRank(c, s, k.fails);
    }
  }

  lemma DrainLowersRank(c: Config, s: State, fails: bool)
    requires s.host.pc.Draining? && s.host.pc.left > 0 && s.commands != [] && !Switches(s.commands[0])
    requires Pending(s.host, s.commands) && Pending(s.host, s.commands[1..])
    ensures var t := Drain(c, s, s.host.pc.left, fails);
            Running(t) ==> Pending(t.host, t.commands) && Rank(t.host, t.commands) < Rank(s.host, s.commands)
  {
  }

  /** No other actor delays the host. */
  lemma OthersKeepRank(c: Config, s: State, e: Event)
    requires Inv(c, s) && Running(s) && s.target.generation == 0 && Pending(s.host, s.commands) && !e.HostMoves?
    ensures var t := Next(c, s, e);
            Running(t) ==>
              Pending(t.host, t.commands) && Rank(t.host, t.commands) == Rank(s.host, s.commands) && t.target.generation == 0
  {
    if e.ReaderMoves? && s.reader.pc.Enqueueing? {
      PendingSurvives(s.host, s.commands, s.reader.pc.next);
      if i: int :| 0 <= i < |s.commands| && Switches(s.commands[i]) { FirstSwitchStays(s.commands, s.reader.pc.next, i); }
    }
  }

  /** The session goes on, and throughout no input is accepted. */
  ghost predicate Dark(c: Config, s: State, events: seq<Event>)
    decreases |events|
  {
    Running(s) && s.target.generation == 0 && (events != [] ==> Dark(c, Next(c, s, events[0]), events[1..]))
  }

  function HostSteps(events: seq<Event>): nat {
    if events == [] then 0 else (if events[0].HostMoves? then 1 else 0) + HostSteps(events[1..])
  }

  lemma {:induction false} DarknessEndsByRank(c: Config, s: State, events: seq<Event>)
    requires Attached(c) && Inv(c, s) && Pending(s.host, s.commands) && Dark(c, s, events)
    ensures HostSteps(events) <= Rank(s.host, s.commands)
    decreases |events|
  {
    if events != [] {
      var e, t := events[0], Next(c, s, events[0]);
      NextKeeps(c, s, e);
      if e.HostMoves? {
        HostStepLowersRank(c, s, e.host);
      } else {
        OthersKeepRank(c, s, e);
      }
      DarknessEndsByRank(c, t, events[1..]);
    }
  }

  /** In every reachable state a disabled target has the command that will enable it again on its way, or the session ends. */
  lemma DisabledTargetIsAwaited(c: Config, start: State, events: seq<Event>)
    requires Attached(c) && Initial(c, start)
    ensures var s := Run(c, start, events);
            s.live && s.target.generation == 0 ==> BeingSent(s.reader.pc) || Pending(s.host, s.commands)
  {
    InitialInv(c, start);
    RunKeeps(c, start, events);
  }

  /** What follows the reader's next step. */
  function AfterReader(events: seq<Event>): seq<Event> {
    if events == [] then [] else if events[0].ReaderMoves? then events[1..] else AfterReader(events[1..])
  }

  /** The reader's next step queues the command: the queue has room, or the session ends. */
  lemma SendingIsQueued(c: Config, s: State, e: Event)
    requires BeingSent(s.reader.pc)
    ensures var t := Next(c, s, e);
            if e.ReaderMoves? then t.live ==> Pending(t.host, t.commands) else t.reader.pc == s.reader.pc
  {
    if e.ReaderMoves? {
      PendingSurvives(s.host, s.commands, s.reader.pc.next);
    } else if e.HostMoves? && s.host.pc.Draining? && s.host.pc.left > 0 && s.commands != [] {
      HandleOnlyGrows(c, s, s.host.pc.left, e.host.fails);
    }
  }

  lemma {:induction false} SendingEndsDarkness(c: Config, s: State, events: seq<Event>)
    requires Attached(c) && Inv(c, s) && BeingSent(s.reader.pc) && Dark(c, s, events)
    ensures HostSteps(AfterReader(events)) <= 419
    decreases |events|
  {
    if events != [] {
      var e, t := events[0], Next(c, s, events[0]);
      NextKeeps(c, s, e);
      SendingIsQueued(c, s, e);
      if e.ReaderMoves? {
        DarknessEndsByRank(c, t, events[1..]);
        RankIsBounded(t.host, t.commands);
      } else {
        SendingEndsDarkness(c, t, events[1..]);
      }
    }
  }

  /**
   Whatever the viewer sends and however often it selects: a host loop that goes on gives a zeroed target a generation
   within 419 of its steps, counted from where the command that goes with the zeroing is queued: from the start, or from
   the reader's next step.
   */
  lemma InputComesBack(c: Config, start: State, before: seq<Event>, after: seq<Event>)
    requires Attached(c) && Initial(c, start)
    requires Dark(c, Run(c, start, before), after)
    ensures HostSteps(if BeingSent(Run(c, start, before).reader.pc) then AfterReader(after) else after) <= 419
  {
    InitialInv(c, start);
    RunKeeps(c, start, before);
    var s := Run(c, start, before);
    if BeingSent(s.reader.pc) {
      SendingEndsDarkness(c, s, after);
    } else {
      DarknessEndsByRank(c, s, after);
      RankIsBounded(s.host, s.commands);
    }
  }

  // -----------------------------------------------------------------------------------------------------------------
  // What ends a session
  // -----------------------------------------------------------------------------------------------------------------

  predicate Ends(command: Command) { command.Goodbye? || command.Failed? }

  predicate ReaderGoes(pc: ReaderPc) {
    match pc
    case Receiving => true
    case Releasing(next) => !Ends(next)
    case Zeroing(next) => !Ends(next)
    case Enqueueing(next) => !Ends(next)
    case Leaving => false
    case ReaderEnded => false
  }

  ghost predicate NoneEnds(commands: seq<Command>) { forall i | 0 <= i < |commands| :: !Ends(commands[i]) }

  /** Nobody has left, and nothing is on its way that makes the host leave. */
  ghost predicate Going(s: State) { s.live && !s.host.pc.HostEnded? && NoneEnds(s.commands) && ReaderGoes(s.reader.pc) }

  predicate HostSucceeds(s: State, k: HostChoice) {
    match s.host.pc
    case Starting => !k.fails
    case Announcing => !k.fails
    case Deciding => !k.fails
    case Working => !k.fails
    case Draining(left) => left > 0 && s.commands != [] && s.commands[0].Harmless? ==> !k.fails
    case _ => true
  }

  /** Input of the current generation has to be permitted, valid, and taken by the system; any other is passed over. */
  predicate Accepted(c: Config, target: Target, reader: Reader, m: ViewerMessage, env: Env)
    requires m.InputMessage?
  {
    || target.generation == 0 || m.generation != target.generation
    || (&& c.mayInput && Valid(m.event, target.display) && env.interactive
        && (m.event.Move? ==> env.screen.width > 1 && env.screen.height > 1)
        && Toll(if reader.injected == target.generation then reader.held else NOTHING_HELD, m.event) <= env.accepts)
  }

  predicate Welcome(c: Config, target: Target, reader: Reader, m: ViewerMessage, env: Env) {
    match m
    case InputMessage(_, _, _) => Accepted(c, target, reader, m, env)
    case SelectMessage(index) => index < |c.displays|
    case CloseMessage => false
    case UnexpectedMessage => false
    case _ => true
  }

  predicate ReaderSucceeds(c: Config, s: State, k: ReaderChoice) {
    match s.reader.pc
    case Receiving => !k.fails && (s.toHost == [] || Welcome(c, s.target, s.reader, s.toHost[0], k.apply))
    case Releasing(_) =>
      Toll(s.reader.held, ReleaseAll) == 0 || (k.release.interactive && Toll(s.reader.held, ReleaseAll) <= k.release.accepts)
    case Enqueueing(_) => |s.commands| < QUEUE
    case _ => true
  }

  predicate Succeeds(c: Config, s: State, e: Event) {
    match e
    case HostMoves(k) => HostSucceeds(s, k)
    case ReaderMoves(k) => ReaderSucceeds(c, s, k)
    case ViewerMoves(_) => true
  }

  lemma HandlingGoes(c: Config, s: State, command: Command, left: nat, fails: bool)
    requires Attached(c) && s.live && CommandOk(c, command)
    ensures var t := Handle(c, s, command, Draining(left), fails);
            t.live && !t.host.pc.HostEnded? <==> !Ends(command) && (command.Harmless? ==> !fails)
    ensures var t := Handle(c, s, command, Draining(left), fails); t.commands == s.commands && t.reader == s.reader
  {
  }

  lemma OneLessEnds(commands: seq<Command>)
    requires commands != []
    ensures NoneEnds(commands) <==> !Ends(commands[0]) && NoneEnds(commands[1..])
  {
    if !Ends(commands[0]) && NoneEnds(commands[1..]) {
      forall i | 0 <= i < |commands| ensures !Ends(commands[i]) { if i > 0 { assert commands[i] == commands[1..][i - 1]; } }
    }
  }

  lemma HostGoesOn(c: Config, s: State, k: HostChoice)
    requires Attached(c) && Inv(c, s)
    ensures Going(HostStep(c, s, k)) <==> Going(s) && HostSucceeds(s, k)
  {
    OwnDisplay(c, s.host.display);
    if s.host.pc.Draining? && s.host.pc.left > 0 && s.commands != [] && s.live {
      HandlingGoes(c, s.(commands := s.commands[1..]), s.commands[0], s.host.pc.left - 1, k.fails);
      OneLessEnds(s.commands);
    }
  }

  lemma ApplyingGoes(c: Config, s: State, m: ViewerMessage, env: Env)
    requires m.InputMessage? && WellFormed(s.reader.held)
    ensures var t := Apply(c, s, m, env);
            ReaderGoes(t.reader.pc) <==>
              && c.mayInput && Valid(m.event, s.target.display) && env.interactive
              && (m.event.Move? ==> env.screen.width > 1 && env.screen.height > 1)
              && Toll(s.reader.held, m.event) <= env.accepts
  {
    InputGetsThrough(s.reader.held, m.event, s.target.display, env.(permitted := c.mayInput));
  }

  lemma ReadingGoes(c: Config, s: State, m: ViewerMessage, k: ReaderChoice)
    requires Attached(c) && HostSide(c, s) && WellFormed(s.reader.held) && s.reader.pc.Receiving?
    ensures ReaderGoes(Read(c, s, m, k).reader.pc) <==> Welcome(c, s.target, s.reader, m, k.apply)
  {
    OwnDisplay(c, s.target.display);
    if m.SelectMessage? && m.index < |c.displays| { assert c.displays[m.index] in c.displays; }
    if m.InputMessage? && s.target.generation != 0 && m.generation == s.target.generation {
      if s.reader.injected == s.target.generation {
        ApplyingGoes(c, s, m, k.apply);
      } else {
        var released := Release(s, k.release).0;
        ApplyingGoes(c, released.(reader := released.reader.(injected := s.target.generation)), m, k.apply);
      }
    }
  }

  lemma OneMoreEnds(commands: seq<Command>, command: Command)
    ensures NoneEnds(commands + [command]) <==> NoneEnds(commands) && !Ends(command)
  {
    var all := commands + [command];
    assert all[|commands|] == command;
    forall i | 0 <= i < |commands| ensures Ends(all[i]) <==> Ends(commands[i]) {}
    if NoneEnds(all) {
      forall i | 0 <= i < |commands| ensures !Ends(commands[i]) { assert all[i] == commands[i]; }
    }
  }

  lemma ReaderGoesOn(c: Config, s: State, k: ReaderChoice)
    requires Attached(c) && Inv(c, s)
    ensures Going(ReaderStep(c, s, k)) <==> Going(s) && ReaderSucceeds(c, s, k)
  {
    match s.reader.pc
    case Receiving =>
      if s.toHost != [] { ReadingGoes(c, s.(toHost := s.toHost[1..]), s.toHost[0], k); }
    case Releasing(_) => ReleaseGetsThrough(s.reader.held, k.release);
    case Enqueueing(next) => OneMoreEnds(s.commands, next);
    case _ =>
  }

  lemma NextGoesOn(c: Config, s: State, e: Event) returns (t: State)
    requires Attached(c) && Inv(c, s)
    ensures t == Next(c, s, e) && Inv(c, t) && (Going(t) <==> Going(s) && Succeeds(c, s, e))
  {
    NextKeeps(c, s, e);
    t := Next(c, s, e);
    match e
    case HostMoves(k) => HostGoesOn(c, s, k);
    case ReaderMoves(k) => ReaderGoesOn(c, s, k);
    case ViewerMoves(_) =>
  }

  ghost predicate AllSucceed(c: Config, s: State, events: seq<Event>)
    decreases |events|
  {
    events == [] || (Succeeds(c, s, events[0]) && AllSucceed(c, Next(c, s, events[0]), events[1..]))
  }

  lemma {:induction false} RunGoesOn(c: Config, s: State, events: seq<Event>)
    requires Attached(c) && Inv(c, s)
    ensures Going(Run(c, s, events)) <==> Going(s) && AllSucceed(c, s, events)
    decreases |events|
  {
    if events != [] {
      var t := NextGoesOn(c, s, events[0]);
      RunGoesOn(c, t, events[1..]);
    }
  }

  /**
   A session goes on as long as every step succeeds, and no longer: it ends for a failure of the host, a full queue, a
   refused release, an input that is forbidden, invalid or not taken, an unknown display, or a message that asks for the end.
   */
  lemma SessionsEndForAReason(c: Config, start: State, events: seq<Event>)
    requires Attached(c) && Initial(c, start)
    ensures Going(Run(c, start, events)) <==> AllSucceed(c, start, events)
  {
    InitialInv(c, start);
    RunGoesOn(c, start, events);
  }
}
