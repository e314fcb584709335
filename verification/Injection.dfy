/** Input injection: what a viewer's event does to the desktop, and what the injector believes to be held down. */
module Injection {
  import opened Wrappers

  datatype Display = Display(index: nat, left: int, top: int, width: nat, height: nat)

  datatype Button = Left | Right | Middle

  /** Text is its UTF-16 units, with the length of its UTF-8 form and whether it has a control character. */
  datatype Input =
    | Move(x: nat, y: nat)
    | Click(button: Button, down: bool)
    | Wheel(delta: int, horizontal: bool)
    | Key(virtualKey: nat, down: bool)
    | Text(units: seq<nat>, length: nat, hasControl: bool)
    | ReleaseAll

  predicate Valid(e: Input, d: Display) {
    match e
    case Move(x, y) => x < d.width && y < d.height
    case Key(k, _) => 0 < k <= 254
    case Wheel(delta, _) => -12000 <= delta <= 12000
    case Text(_, length, hasControl) => length <= 1024 && !hasControl
    case _ => true
  }

  datatype OsEvent =
    | PointerTo(dx: nat, dy: nat)
    | ButtonEvent(button: Button, down: bool)
    | WheelEvent(data: nat, horizontal: bool)
    | KeyEvent(key: nat, extended: bool, down: bool)
    | UnitEvent(unit: nat, down: bool)

  /** The virtual screen spanned by all displays. */
  datatype Screen = Screen(left: int, top: int, width: int, height: int)

  /** Rust's integer division, which truncates toward zero. */
  function TruncatingDiv(a: int, b: int): int
    requires b > 0
  {
    if a >= 0 then a / b else -((-a) / b)
  }

  function Clamp(v: int, low: int, high: int): int {
    if v < low then low else if v > high then high else v
  }

  function Axis(position: int, start: int, extent: int): (r: nat)
    requires extent > 1
    ensures r <= 65535
  {
    Clamp(TruncatingDiv((position - start) * 65535, extent - 1), 0, 65535)
  }

  lemma TruncationIsFloor(a: int, b: int)
    requires b > 0
    ensures a >= 0 ==> TruncatingDiv(a, b) * b <= a < (TruncatingDiv(a, b) + 1) * b
    ensures a < 0 ==> TruncatingDiv(a, b) <= 0
  {
  }

  lemma CompareProducts(x: int, y: int, b: int)
    requires b > 0 && x * b < (y + 1) * b
    ensures x <= y
  {
  }

  /** Inside the screen the absolute coordinate is the exact position rounded down; outside it is the nearest edge. */
  lemma AxisIsPosition(position: int, start: int, extent: int)
    requires extent > 1
    ensures var d := Axis(position, start, extent);
            && (start <= position < start + extent ==>
                  d * (extent - 1) <= (position - start) * 65535 < (d + 1) * (extent - 1))
            && (position < start ==> d == 0)
            && (position >= start + extent ==> d == 65535)
  {
    var a, b := (position - start) * 65535, extent - 1;
    var q := TruncatingDiv(a, b);
    TruncationIsFloor(a, b);
    if position >= start + b {
      assert 65535 * b <= a;
      CompareProducts(65535, q, b);
    } else if position >= start {
      assert a < 65535 * b;
      CompareProducts(q, 65534, b);
      CompareProducts(0, q, b);
    }
    if position == start + b { CompareProducts(q, 65535, b); }
  }

  /** Two pixels of a screen of at most 65536 columns never land on the same coordinate, and order is kept. */
  lemma AxisSeparatesPixels(p: int, q: int, start: int, extent: int)
    requires 1 < extent <= 65536 && start <= p < q < start + extent
    ensures Axis(p, start, extent) < Axis(q, start, extent)
  {
    AxisIsPosition(p, start, extent);
    AxisIsPosition(q, start, extent);
    var dp, dq, b := Axis(p, start, extent), Axis(q, start, extent), extent - 1;
    assert (p - start) * 65535 + 65535 <= (q - start) * 65535;
    assert dp * b + b < (dq + 1) * b;
    assert (dp + 1) * b == dp * b + b;
    CompareProducts(dp + 1, dq, b);
  }

  predicate Extended(key: nat) {
    || 0x21 <= key <= 0x28 || key == 0x2D || key == 0x2E || key == 0x5B || key == 0x5C || key == 0x6F || key == 0x90
    || key == 0xA3 || key == 0xA5
  }

  /** What the injector remembers as held. */
  datatype Held = Held(keys: set<nat>, buttons: seq<Button>)

  const NOTHING_HELD := Held({}, [])

  /** The keys come off in ascending order. */
  function KeyUps(keys: set<nat>, from: nat): seq<OsEvent>
    decreases 255 - from
  {
    if from > 254 then []
    else (if from in keys then [KeyEvent(from, Extended(from), false)] else []) + KeyUps(keys, from + 1)
  }

  function ButtonUps(buttons: seq<Button>): seq<OsEvent> {
    if buttons == [] then [] else [ButtonEvent(buttons[0], false)] + ButtonUps(buttons[1..])
  }

  function Typed(units: seq<nat>): seq<OsEvent> {
    if units == [] then [] else [UnitEvent(units[0], true), UnitEvent(units[0], false)] + Typed(units[1..])
  }

  function Without(buttons: seq<Button>, b: Button): seq<Button> {
    if buttons == [] then []
    else (if buttons[0] == b then [] else [buttons[0]]) + Without(buttons[1..], b)
  }

  /** The circumstances of one call: the consent, the desktop, and how many events the system will take. */
  datatype Env = Env(permitted: bool, interactive: bool, screen: Screen, accepts: nat)

  datatype InputError = Denied | Invalid | NotInteractive | NoMonitor | Refused

  /** The events that get through, and whether all did. */
  function Sent(events: seq<OsEvent>, env: Env): (seq<OsEvent>, Result<(), InputError>) {
    if events == [] then ([], Ok(()))
    else if !env.interactive then ([], Err(NotInteractive))
    else if env.accepts < |events| then (events[..env.accepts], Err(Refused))
    else (events, Ok(()))
  }

  function ReleaseStep(h: Held, env: Env): (Held, seq<OsEvent>, Result<(), InputError>) {
    var (out, r) := Sent(KeyUps(h.keys, 0) + ButtonUps(h.buttons), env);
    (NOTHING_HELD, out, r)
  }

  /** The events one valid input asks for. */
  function Events(e: Input, d: Display, screen: Screen): seq<OsEvent>
    requires screen.width > 1 && screen.height > 1
  {
    match e
    case Move(x, y) => [PointerTo(Axis(d.left + x, screen.left, screen.width), Axis(d.top + y, screen.top, screen.height))]
    case Click(button, down) => [ButtonEvent(button, down)]
    case Wheel(delta, horizontal) => [WheelEvent(if delta < 0 then Clamp(delta + 0x1_0000_0000, 0, 0xFFFF_FFFF) else delta, horizontal)]
    case Key(key, down) => [KeyEvent(key, Extended(key), down)]
    case Text(units, _, _) => Typed(units)
    case ReleaseAll => []
  }

  function HoldAfter(h: Held, e: Input): Held {
    match e
    case Click(button, down) => h.(buttons := Without(h.buttons, button) + if down then [button] else [])
    case Key(key, down) => h.(keys := if down then h.keys + {key} else h.keys - {key})
    case _ => h
  }

  function ApplyStep(h: Held, e: Input, d: Display, env: Env): (Held, seq<OsEvent>, Result<(), InputError>) {
    if !env.permitted then (h, [], Err(Denied))
    else if !Valid(e, d) then (h, [], Err(Invalid))
    else if !env.interactive then (h, [], Err(NotInteractive))
    else if e.ReleaseAll? then ReleaseStep(h, env)
    else if e.Move? && (env.screen.width <= 1 || env.screen.height <= 1) then (h, [], Err(NoMonitor))
    else
      var screen := if e.Move? then env.screen else Screen(0, 0, 2, 2);
      var (out, r) := Sent(Events(e, d, screen), env);
      (if r.Ok? then HoldAfter(h, e) else h, out, r)
  }

  /** The desktop's input queue, as the record of everything it took. */
  class Desktop {
    var log: seq<OsEvent>

    constructor ()
      ensures log == []
    {
      log := [];
    }

    method Send(events: seq<OsEvent>, env: Env) returns (r: Result<(), InputError>)
      modifies this
      ensures r == Sent(events, env).1 && log == old(log) + Sent(events, env).0
    {
      if events == [] { return Ok(()); }
      if !env.interactive { return Err(NotInteractive); }
      if env.accepts < |events| {
        log := log + events[..env.accepts];
        return Err(Refused);
      }
      log := log + events;
      return Ok(());
    }
  }

  class Injector {
    const desktop: Desktop
    var keys: set<nat>
    var buttons: seq<Button>

    ghost function Value(): Held reads this { Held(keys, buttons) }

    constructor (desktop: Desktop)
      ensures Value() == NOTHING_HELD && this.desktop == desktop
    {
      this.desktop, keys, buttons := desktop, {}, [];
    }

    method Release(env: Env) returns (r: Result<(), InputError>)
      modifies this, desktop
      ensures var (h, out, result) := ReleaseStep(old(Value()), env);
              Value() == h && desktop.log == old(desktop.log) + out && r == result
    {
      r := desktop.Send(KeyUps(keys, 0) + ButtonUps(buttons), env);
      keys, buttons := {}, [];
    }

    method Apply(e: Input, d: Display, env: Env) returns (r: Result<(), InputError>)
      modifies this, desktop
      ensures var (h, out, result) := ApplyStep(old(Value()), e, d, env);
              Value() == h && desktop.log == old(desktop.log) + out && r == result
    {
      assert desktop.log + [] == desktop.log;
      if !env.permitted { return Err(Denied); }
      if !Valid(e, d) { return Err(Invalid); }
      if !env.interactive { return Err(NotInteractive); }
      match e
      case ReleaseAll =>
        r := Release(env);
      case Move(_, _) =>
        if env.screen.width <= 1 || env.screen.height <= 1 { return Err(NoMonitor); }
        r := desktop.Send(Events(e, d, env.screen), env);
      case Click(button, down) =>
        r := desktop.Send([ButtonEvent(button, down)], env);
        if r.Ok? {
          buttons := Without(buttons, button);
          if down { buttons := buttons + [button]; }
        }
      case Key(key, down) =>
        r := desktop.Send([KeyEvent(key, Extended(key), down)], env);
        if r.Ok? { keys := if down then keys + {key} else keys - {key}; }
      case _ =>
        r := desktop.Send(Events(e, d, Screen(0, 0, 2, 2)), env);
    }
  }

  // -----------------------------------------------------------------------------------------------------------------
  // What is really down
  // -----------------------------------------------------------------------------------------------------------------

  datatype Item = KeyItem(key: nat) | ButtonItem(button: Button)

  function Changed(before: set<Item>, e: OsEvent): set<Item> {
    match e
    case KeyEvent(key, _, down) => if down then before + {KeyItem(key)} else before - {KeyItem(key)}
    case ButtonEvent(b, down) => if down then before + {ButtonItem(b)} else before - {ButtonItem(b)}
    case _ => before
  }

  /** The keys and buttons that are down once the desktop has processed some more events. */
  function Down(before: set<Item>, events: seq<OsEvent>): set<Item>
    decreases |events|
  {
    if events == [] then before else Down(Changed(before, events[0]), events[1..])
  }

  lemma {:induction false} DownInSteps(before: set<Item>, a: seq<OsEvent>, b: seq<OsEvent>)
    ensures Down(before, a + b) == Down(Down(before, a), b)
    decreases |a|
  {
    if a == [] {
      assert a + b == b;
    } else {
      assert (a + b)[1..] == a[1..] + b;
      DownInSteps(Changed(before, a[0]), a[1..], b);
    }
  }

  ghost function Items(h: Held): set<Item> {
    (set k | k in h.keys :: KeyItem(k)) + (set b | b in h.buttons :: ButtonItem(b))
  }

  predicate WellFormed(h: Held) {
    && (forall k | k in h.keys :: k <= 254)
    && (forall i, j | 0 <= i < j < |h.buttons| :: h.buttons[i] != h.buttons[j])
  }

  lemma {:induction false} KeyUpsLift(before: set<Item>, keys: set<nat>, from: nat)
    requires from <= 255
    ensures forall i :: i in Down(before, KeyUps(keys, from)) <==>
                          i in before && !(i.KeyItem? && i.key in keys && from <= i.key <= 254)
    decreases 255 - from
  {
    if from <= 254 {
      var first := if from in keys then [KeyEvent(from, Extended(from), false)] else [];
      DownInSteps(before, first, KeyUps(keys, from + 1));
      KeyUpsLift(Down(before, first), keys, from + 1);
      assert first != [] ==> first[1..] == [];
    }
  }

  lemma {:induction false} ButtonUpsLift(before: set<Item>, buttons: seq<Button>)
    ensures forall i :: i in Down(before, ButtonUps(buttons)) <==> i in before && !(i.ButtonItem? && i.button in buttons)
  {
    if buttons != [] {
      ButtonUpsLift(before - {ButtonItem(buttons[0])}, buttons[1..]);
      assert ButtonUps(buttons)[1..] == ButtonUps(buttons[1..]);
    }
  }

  lemma {:induction false} TypingHoldsNothing(before: set<Item>, events: seq<OsEvent>)
    requires forall e | e in events :: e.UnitEvent?
    ensures Down(before, events) == before
    decreases |events|
  {
    if events != [] {
      assert events[0].UnitEvent?;
      TypingHoldsNothing(before, events[1..]);
    }
  }

  lemma {:induction false} TypedIsUnits(units: seq<nat>)
    ensures forall e | e in Typed(units) :: e.UnitEvent?
  {
    if units != [] { TypedIsUnits(units[1..]); }
  }

  lemma {:induction false} WithoutDrops(buttons: seq<Button>, b: Button)
    ensures forall x :: x in Without(buttons, b) <==> x in buttons && x != b
    ensures (forall i, j | 0 <= i < j < |buttons| :: buttons[i] != buttons[j]) ==>
              forall i, j | 0 <= i < j < |Without(buttons, b)| :: Without(buttons, b)[i] != Without(buttons, b)[j]
  {
    if buttons != [] {
      WithoutDrops(buttons[1..], b);
      var first, rest := if buttons[0] == b then [] else [buttons[0]], Without(buttons[1..], b);
      if forall i, j | 0 <= i < j < |buttons| :: buttons[i] != buttons[j] {
        assert forall i, j | 0 <= i < j < |buttons[1..]| :: buttons[1..][i] != buttons[1..][j];
        assert buttons[0] !in buttons[1..];
        assert forall j | 0 <= j < |rest| :: rest[j] in rest;
      }
    }
  }

  /** If what is remembered is what is down, a successful release lifts everything. */
  lemma ReleaseLiftsEverything(h: Held, down: set<Item>, env: Env)
    requires WellFormed(h) && down == Items(h) && ReleaseStep(h, env).2.Ok?
    ensures Down(down, ReleaseStep(h, env).1) == {}
  {
    DownInSteps(down, KeyUps(h.keys, 0), ButtonUps(h.buttons));
    KeyUpsLift(down, h.keys, 0);
    ButtonUpsLift(Down(down, KeyUps(h.keys, 0)), h.buttons);
  }

  /**
   Whatever the input and however it fails, the injector remembers exactly what is down. The one exception is a release
   the system refuses, after which nothing is remembered and something may stay down.
   */
  lemma ApplyRemembersWhatIsDown(h: Held, down: set<Item>, e: Input, d: Display, env: Env)
    requires WellFormed(h) && down == Items(h)
    ensures var (h', out, r) := ApplyStep(h, e, d, env);
            && WellFormed(h')
            && (r.Ok? || !e.ReleaseAll? || h' == h ==> Down(down, out) == Items(h'))
            && (r.Ok? && e.ReleaseAll? ==> Down(down, out) == {})
  {
    var (h', out, r) := ApplyStep(h, e, d, env);
    match e
    case ReleaseAll =>
      if out != [] && r.Ok? { ReleaseLiftsEverything(h, down, env); }
      ReleaseMatches(h, down, env);
    case Text(units, _, _) =>
      TypedIsUnits(units);
      TypingHoldsNothing(down, out);
    case Click(button, goesDown) =>
      WithoutDrops(h.buttons, button);
      if r.Ok? {
        assert out == [ButtonEvent(button, goesDown)] && out[1..] == [];
        ClickItems(h, button, goesDown);
      }
    case Key(key, goesDown) =>
      if r.Ok? { assert out == [KeyEvent(key, Extended(key), goesDown)] && out[1..] == []; }
    case _ =>
      if out != [] { assert out[1..] == []; }
  }

  lemma ReleaseMatches(h: Held, down: set<Item>, env: Env)
    requires WellFormed(h) && down == Items(h)
    ensures var (h', out, r) := ReleaseStep(h, env);
            h' == NOTHING_HELD && (r.Ok? ==> Down(down, out) == {}) && (h == NOTHING_HELD ==> r.Ok?)
  {
    if ReleaseStep(h, env).2.Ok? { ReleaseLiftsEverything(h, down, env); }
    if h == NOTHING_HELD { NoKeyUps(0); }
  }

  lemma {:induction false} NoKeyUps(from: nat)
    ensures KeyUps({}, from) == []
    decreases 255 - from
  {
    if from <= 254 { NoKeyUps(from + 1); }
  }

  lemma ClickItems(h: Held, button: Button, down: bool)
    ensures Items(HoldAfter(h, Click(button, down)))
            == if down then Items(h) + {ButtonItem(button)} else Items(h) - {ButtonItem(button)}
  {
    WithoutDrops(h.buttons, button);
    var after := HoldAfter(h, Click(button, down));
    assert forall b :: b in after.buttons <==> (b in h.buttons && b != button) || (down && b == button);
  }

  // -----------------------------------------------------------------------------------------------------------------
  // What the events mean
  // -----------------------------------------------------------------------------------------------------------------

  /** A coordinate of the virtual screen stands for a position: rounded down inside, at the nearer edge outside. */
  predicate StandsFor(d: nat, position: int, start: int, extent: int) {
    && (start <= position < start + extent ==> d * (extent - 1) <= (position - start) * 65535 < (d + 1) * (extent - 1))
    && (position < start ==> d == 0) && (position >= start + extent ==> d == 65535)
  }

  /** How the system reads the wheel's 32 bits. */
  function Signed(data: nat): int { if data < 0x8000_0000 then data else data - 0x1_0000_0000 }

  /** The units that are typed: each is pressed, and released before the next. */
  ghost predicate Types(events: seq<OsEvent>, units: seq<nat>) {
    && |events| == 2 * |units|
    && forall i | 0 <= i < |units| :: events[2 * i] == UnitEvent(units[i], true) && events[2 * i + 1] == UnitEvent(units[i], false)
  }

  /** One event, or a pair for each unit, that does what the input says, with the pointer's own axes. */
  ghost predicate Means(events: seq<OsEvent>, e: Input, d: Display, screen: Screen) {
    match e
    case Move(x, y) =>
      |events| == 1 && events[0].PointerTo?
      && StandsFor(events[0].dx, d.left + x, screen.left, screen.width) && StandsFor(events[0].dy, d.top + y, screen.top, screen.height)
    case Click(button, down) => events == [ButtonEvent(button, down)]
    case Wheel(delta, horizontal) => |events| == 1 && events[0].WheelEvent? && Signed(events[0].data) == delta && events[0].horizontal == horizontal
    case Key(key, down) => |events| == 1 && events[0].KeyEvent? && events[0].key == key && events[0].down == down
    case Text(units, _, _) => Types(events, units)
    case ReleaseAll => true
  }

  lemma {:induction false} TypedTypes(units: seq<nat>)
    ensures Types(Typed(units), units)
  {
    if units != [] {
      TypedTypes(units[1..]);
      var later := Typed(units[1..]);
      forall i | 0 <= i < |units| ensures Typed(units)[2 * i] == UnitEvent(units[i], true) && Typed(units)[2 * i + 1] == UnitEvent(units[i], false) {
        if i > 0 { assert later[2 * (i - 1)] == UnitEvent(units[i], true) && later[2 * (i - 1) + 1] == UnitEvent(units[i], false); }
      }
    }
  }

  /** What a valid, permitted input hands to a system that takes it is what the input says, on the display it is for. */
  lemma InputIsMeant(h: Held, e: Input, d: Display, env: Env)
    requires Valid(e, d) && !e.ReleaseAll? && ApplyStep(h, e, d, env).2.Ok?
    ensures env.permitted && Means(ApplyStep(h, e, d, env).1, e, d, env.screen)
  {
    match e
    case Move(x, y) =>
      AxisIsPosition(d.left + x, env.screen.left, env.screen.width);
      AxisIsPosition(d.top + y, env.screen.top, env.screen.height);
    case Text(units, _, _) => TypedTypes(units);
    case _ =>
  }

  // -----------------------------------------------------------------------------------------------------------------
  // When input gets through
  // -----------------------------------------------------------------------------------------------------------------

  /** How many events the system has to take for an input. */
  function Toll(h: Held, e: Input): nat {
    match e
    case Text(units, _, _) => 2 * |units|
    case ReleaseAll => |h.keys| + |h.buttons|
    case _ => 1
  }

  ghost function From(keys: set<nat>, from: nat): set<nat> { set k | k in keys && from <= k }

  lemma {:induction false} KeyUpsCount(keys: set<nat>, from: nat)
    requires forall k | k in keys :: k <= 254
    ensures |KeyUps(keys, from)| == |From(keys, from)|
    decreases 255 - from
  {
    if from > 254 {
      assert From(keys, from) == {};
    } else {
      KeyUpsCount(keys, from + 1);
      assert From(keys, from) == From(keys, from + 1) + if from in keys then {from} else {};
    }
  }

  lemma {:induction false} ButtonUpsCount(buttons: seq<Button>)
    ensures |ButtonUps(buttons)| == |buttons|
  {
    if buttons != [] { ButtonUpsCount(buttons[1..]); }
  }

  lemma {:induction false} TypedCount(units: seq<nat>)
    ensures |Typed(units)| == 2 * |units|
  {
    if units != [] { TypedCount(units[1..]); }
  }

  /** Letting go succeeds if and only if nothing is held, or the desktop is interactive and takes one event for all that is. */
  lemma ReleaseGetsThrough(h: Held, env: Env)
    requires WellFormed(h)
    ensures var (_, out, r) := ReleaseStep(h, env);
            && (r.Ok? <==> Toll(h, ReleaseAll) == 0 || (env.interactive && Toll(h, ReleaseAll) <= env.accepts))
            && (!env.interactive ==> out == [])
  {
    KeyUpsCount(h.keys, 0);
    assert From(h.keys, 0) == h.keys;
    ButtonUpsCount(h.buttons);
  }

  /** Input gets through if and only if it is permitted, valid, on an interactive desktop, on a screen if it moves, and all of it is taken. */
  lemma InputGetsThrough(h: Held, e: Input, d: Display, env: Env)
    requires WellFormed(h)
    ensures var (after, out, r) := ApplyStep(h, e, d, env);
            && (r.Ok? <==>
                && env.permitted && Valid(e, d) && env.interactive && Toll(h, e) <= env.accepts
                && (e.Move? ==> env.screen.width > 1 && env.screen.height > 1))
            && (!env.permitted || !Valid(e, d) || !env.interactive ==> out == [] && after == h)
  {
    match e
    case ReleaseAll => ReleaseGetsThrough(h, env);
    case Text(units, _, _) => TypedCount(units);
    case _ =>
  }
}
