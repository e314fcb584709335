/** Clipboard sharing between two endpoints: what one sends, the other applies and must not send back. */
module ClipboardEcho {
  import opened Wrappers

  const MAX_CLIPBOARD_BYTES := 64 * 1024

  /** The UTF-8 bytes of a text. */
  type Text = seq<byte>

  predicate Valid(text: Text) { |text| <= MAX_CLIPBOARD_BYTES && 0 !in text }

  datatype ClipboardError = Denied | BadText | Unavailable

  /** An endpoint: what can be read from its system clipboard, if anything, and the fingerprint it remembers. */
  datatype Endpoint = Endpoint(cell: Option<Text>, fingerprint: Option<seq<byte>>)

  function ObserveStep(hash: Text -> seq<byte>, e: Endpoint, text: Text): (Endpoint, Option<Text>) {
    if !Valid(text) then (e, None)
    else
      (e.(fingerprint := Some(hash(text))),
       if e.fingerprint.Some? && e.fingerprint.value != hash(text) then Some(text) else None)
  }

  function PollStep(hash: Text -> seq<byte>, e: Endpoint, enabled: bool, permitted: bool): (Endpoint, Option<Text>) {
    if !enabled || !permitted then (e.(fingerprint := None), None)
    else if e.cell.None? then (e, None)
    else ObserveStep(hash, e, e.cell.value)
  }

  /** How the system takes a new text: it may refuse, and may have emptied the clipboard by then. */
  datatype Setting = Takes | Refuses(empties: bool)

  function ApplyStep(hash: Text -> seq<byte>, e: Endpoint, text: Text, enabled: bool, permitted: bool, setting: Setting)
    : (Endpoint, Result<bool, ClipboardError>)
  {
    if !permitted then (e, Err(Denied))
    else if !Valid(text) then (e, Err(BadText))
    else if !enabled then (e, Ok(false))
    else
      match setting
      case Refuses(empties) => (if empties then e.(cell := None) else e, Err(Unavailable))
      case Takes => (Endpoint(Some(text), Some(hash(text))), Ok(true))
  }

  class TextClipboard {
    const hash: Text -> seq<byte>
    var cell: Option<Text>
    var fingerprint: Option<seq<byte>>

    ghost function Value(): Endpoint reads this { Endpoint(cell, fingerprint) }

    constructor (hash: Text -> seq<byte>, cell: Option<Text>)
      ensures Value() == Endpoint(cell, None) && this.hash == hash
    {
      this.hash, this.cell, fingerprint := hash, cell, None;
    }

    method Poll(enabled: bool, permitted: bool) returns (r: Option<Text>)
      modifies this`fingerprint
      ensures (Value(), r) == PollStep(hash, old(Value()), enabled, permitted)
      ensures r.Some? ==>
                && enabled && permitted && cell == r && Valid(r.value)
                && old(fingerprint).Some? && old(fingerprint).value != hash(r.value) && fingerprint == Some(hash(r.value))
      ensures fingerprint != old(fingerprint) ==> fingerprint == None || (cell.Some? && fingerprint == Some(hash(cell.value)))
    {
      if !enabled || !permitted {
        fingerprint := None;
        return None;
      }
      if cell.None? { return None; }
      r := Observe(cell.value);
    }

    method Observe(text: Text) returns (r: Option<Text>)
      modifies this`fingerprint
      ensures (Value(), r) == ObserveStep(hash, old(Value()), text)
    {
      if !Valid(text) { return None; }
      var previous := fingerprint;
      fingerprint := Some(hash(text));
      return if previous.Some? && previous != fingerprint then Some(text) else None;
    }

    method Apply(text: Text, enabled: bool, permitted: bool, setting: Setting) returns (r: Result<bool, ClipboardError>)
      modifies this
      ensures (Value(), r) == ApplyStep(hash, old(Value()), text, enabled, permitted, setting)
      ensures r != Ok(true) ==> fingerprint == old(fingerprint)
      ensures r == Ok(true) <==> permitted && enabled && Valid(text) && setting.Takes?
      ensures r == Ok(true) ==> cell == Some(text) && fingerprint == Some(hash(text))
      ensures !permitted || !enabled || !Valid(text) ==> cell == old(cell)
      ensures cell == old(cell) || cell == None || r == Ok(true)
    {
      if !permitted { return Err(Denied); }
      if !Valid(text) { return Err(BadText); }
      if !enabled { return Ok(false); }
      match setting
      case Refuses(empties) =>
        if empties { cell := None; }
        return Err(Unavailable);
      case Takes =>
        cell, fingerprint := Some(text), Some(hash(text));
        return Ok(true);
    }
  }

  // -----------------------------------------------------------------------------------------------------------------
  // Two endpoints
  // -----------------------------------------------------------------------------------------------------------------

  datatype Side = Left | Right

  function Other(x: Side): Side { if x == Left then Right else Left }

  /** Both endpoints, and the texts on their way to each; `sends` and `edits` count what has happened. */
  datatype System = System(ends: map<Side, Endpoint>, toward: map<Side, seq<Text>>, sends: map<Side, nat>, edits: map<Side, nat>)

  predicate WellFormed(s: System) {
    && (forall x: Side :: x in s.ends) && (forall x: Side :: x in s.toward)
    && (forall x: Side :: x in s.sends) && (forall x: Side :: x in s.edits)
  }

  datatype Event =
    | Edit(at: Side, text: Option<Text>)
    | Poll(at: Side, enabled: bool, permitted: bool)
    | Deliver(at: Side, enabled: bool, permitted: bool, setting: Setting)
    | Lose(at: Side)
    | Hostile(at: Side, forged: Text)

  function PollAt(hash: Text -> seq<byte>, s: System, x: Side, enabled: bool, permitted: bool): System
    requires WellFormed(s)
  {
    var (e, sent) := PollStep(hash, s.ends[x], enabled, permitted);
    var polled := s.(ends := s.ends[x := e]);
    if sent.None? then polled
    else
      polled.(toward := s.toward[Other(x) := s.toward[Other(x)] + [sent.value]], sends := s.sends[x := s.sends[x] + 1])
  }

  /** Any text may also come from outside, as from a peer that does not follow the protocol. */
  function Next(hash: Text -> seq<byte>, s: System, e: Event): (t: System)
    requires WellFormed(s)
    ensures WellFormed(t)
  {
    match e
    case Edit(x, text) => s.(ends := s.ends[x := s.ends[x].(cell := text)], edits := s.edits[x := s.edits[x] + 1])
    case Poll(x, enabled, permitted) => PollAt(hash, s, x, enabled, permitted)
    case Deliver(x, enabled, permitted, setting) =>
      if s.toward[x] == [] then s
      else
        s.(ends := s.ends[x := ApplyStep(hash, s.ends[x], s.toward[x][0], enabled, permitted, setting).0],
           toward := s.toward[x := s.toward[x][1..]])
    case Lose(x) => if s.toward[x] == [] then s else s.(toward := s.toward[x := s.toward[x][1..]])
    case Hostile(x, text) => s.(toward := s.toward[x := s.toward[x] + [text]])
  }

  function Run(hash: Text -> seq<byte>, s: System, events: seq<Event>): (t: System)
    requires WellFormed(s)
    ensures WellFormed(t)
    decreases |events|
  {
    if events == [] then s else Run(hash, Next(hash, s, events[0]), events[1..])
  }

  /** One if the endpoint's next poll may send: it remembers something, and its clipboard holds something else. */
  function Owed(hash: Text -> seq<byte>, e: Endpoint): nat {
    if e.fingerprint.Some? && e.cell.Some? && e.fingerprint.value != hash(e.cell.value) then 1 else 0
  }

  /** Only an edit at an endpoint makes it owe a send. */
  lemma StepOwes(hash: Text -> seq<byte>, s: System, e: Event, x: Side)
    requires WellFormed(s)
    ensures var t := Next(hash, s, e);
            t.sends[x] + Owed(hash, t.ends[x]) + s.edits[x] <= s.sends[x] + Owed(hash, s.ends[x]) + t.edits[x]
  {
  }

  /**
   Over every interleaving of edits, polls, deliveries, losses, hostile texts and switching on and off: an endpoint's sends
   are paid for by its own user's edits, one for one.
   */
  lemma {:induction false} SendsArePaidForByEdits(hash: Text -> seq<byte>, s: System, events: seq<Event>, x: Side)
    requires WellFormed(s)
    ensures var t := Run(hash, s, events);
            t.sends[x] + Owed(hash, t.ends[x]) + s.edits[x] <= s.sends[x] + Owed(hash, s.ends[x]) + t.edits[x]
    decreases |events|
  {
    if events != [] {
      StepOwes(hash, s, events[0], x);
      SendsArePaidForByEdits(hash, Next(hash, s, events[0]), events[1..], x);
    }
  }

  predicate Fresh(s: System) {
    WellFormed(s) && forall x: Side :: s.ends[x].fingerprint == None && s.sends[x] == 0 && s.edits[x] == 0
  }

  /** From the start of a session: never more sends in total than edits in total. */
  lemma TotalSendsWithinEdits(hash: Text -> seq<byte>, s: System, events: seq<Event>)
    requires Fresh(s)
    ensures var t := Run(hash, s, events);
            t.sends[Left] <= t.edits[Left] && t.sends[Right] <= t.edits[Right]
            && t.sends[Left] + t.sends[Right] <= t.edits[Left] + t.edits[Right]
  {
    SendsArePaidForByEdits(hash, s, events, Left);
    SendsArePaidForByEdits(hash, s, events, Right);
  }

  lemma {:induction false} EditsAreCounted(hash: Text -> seq<byte>, s: System, events: seq<Event>, x: Side)
    requires WellFormed(s) && forall e | e in events :: !(e.Edit? && e.at == x)
    ensures Run(hash, s, events).edits[x] == s.edits[x]
    decreases |events|
  {
    if events != [] {
      assert events[0] in events;
      EditsAreCounted(hash, Next(hash, s, events[0]), events[1..], x);
    }
  }

  /** Once users stop editing, the two endpoints together send at most twice more: no text ever goes back and forth. */
  lemma EchoesDieOut(hash: Text -> seq<byte>, s: System, events: seq<Event>)
    requires WellFormed(s) && forall e | e in events :: !e.Edit?
    ensures var t := Run(hash, s, events);
            t.sends[Left] + t.sends[Right] <= s.sends[Left] + s.sends[Right] + Owed(hash, s.ends[Left]) + Owed(hash, s.ends[Right])
  {
    EditsAreCounted(hash, s, events, Left);
    EditsAreCounted(hash, s, events, Right);
    SendsArePaidForByEdits(hash, s, events, Left);
    SendsArePaidForByEdits(hash, s, events, Right);
  }

  /**
   An endpoint that remembers nothing, as at the start and after any poll while switched off, sends nothing until its user
   edits again, however often it is switched on and polled.
   */
  lemma BaselineIsNeverSent(hash: Text -> seq<byte>, s: System, events: seq<Event>, x: Side)
    requires WellFormed(s) && s.ends[x].fingerprint == None && forall e | e in events :: !(e.Edit? && e.at == x)
    ensures Run(hash, s, events).sends[x] <= s.sends[x]
  {
    EditsAreCounted(hash, s, events, x);
    SendsArePaidForByEdits(hash, s, events, x);
  }

  /**
   Anything may happen, at either endpoint and on the way, but at this one no user edit, no delivery that changes it, and
   no poll while sharing is on and permitted.
   */
  ghost predicate LeftAlone(hash: Text -> seq<byte>, s: System, events: seq<Event>, x: Side)
    requires WellFormed(s)
    decreases |events|
  {
    events == []
    || (LeavesAlone(hash, s, events[0], x) && LeftAlone(hash, Next(hash, s, events[0]), events[1..], x))
  }

  ghost predicate LeavesAlone(hash: Text -> seq<byte>, s: System, e: Event, x: Side)
    requires WellFormed(s)
  {
    match e
    case Edit(y, _) => y != x
    case Poll(y, enabled, permitted) => y == x ==> !enabled || !permitted
    case Deliver(y, _, _, _) => y == x ==> Next(hash, s, e).ends[x] == s.ends[x]
    case _ => true
  }

  predicate Polled(events: seq<Event>, x: Side) { exists i :: 0 <= i < |events| && events[i].Poll? && events[i].at == x }

  lemma {:induction false} LeftAloneKeeps(hash: Text -> seq<byte>, s: System, events: seq<Event>, x: Side)
    requires WellFormed(s) && LeftAlone(hash, s, events, x)
    ensures var t := Run(hash, s, events);
            && t.sends[x] == s.sends[x] && t.ends[x].cell == s.ends[x].cell
            && t.ends[x].fingerprint == if Polled(events, x) then None else s.ends[x].fingerprint
    decreases |events|
  {
    if events != [] {
      var rest := events[1..];
      LeftAloneKeeps(hash, Next(hash, s, events[0]), rest, x);
      assert Polled(events, x) <==> (events[0].Poll? && events[0].at == x) || Polled(rest, x) by {
        if i: int :| 0 <= i < |events| && events[i].Poll? && events[i].at == x && i > 0 { assert rest[i - 1] == events[i]; }
        if i: int :| 0 <= i < |rest| && rest[i].Poll? && rest[i].at == x { assert events[i + 1] == rest[i]; }
      }
    }
  }

  /**
   Whether an edit is sent by the next poll with sharing on, whatever happened since in which the endpoint was left alone:
   if and only if the text is legal, the endpoint remembered some other text when it was edited, and no poll since noticed
   that sharing was off.
   */
  lemma EditIsSent(hash: Text -> seq<byte>, s: System, x: Side, text: Text, between: seq<Event>)
    requires WellFormed(s)
    requires LeftAlone(hash, Next(hash, s, Edit(x, Some(text))), between, x)
    ensures var before := Run(hash, Next(hash, s, Edit(x, Some(text))), between);
            var after := Next(hash, before, Poll(x, true, true));
            var remembered := s.ends[x].fingerprint;
            if Valid(text) && remembered.Some? && remembered.value != hash(text) && !Polled(between, x)
            then after.sends[x] == s.sends[x] + 1 && after.toward[Other(x)] == before.toward[Other(x)] + [text]
            else after.sends[x] == s.sends[x] && after.toward == before.toward
  {
    LeftAloneKeeps(hash, Next(hash, s, Edit(x, Some(text))), between, x);
  }

  /** An edit made while sharing is off is sent by the first poll that finds it on if and only if no poll found it off. */
  lemma EditWhileOff(hash: Text -> seq<byte>, s: System, x: Side, text: Text, between: seq<Event>)
    requires WellFormed(s) && Valid(text) && s.ends[x].fingerprint.Some? && s.ends[x].fingerprint.value != hash(text)
    requires LeftAlone(hash, Next(hash, s, Edit(x, Some(text))), between, x)
    ensures var t := Run(hash, s, [Edit(x, Some(text))] + between + [Poll(x, true, true)]);
            t.sends[x] == s.sends[x] + (if Polled(between, x) then 0 else 1)
  {
    var edited := Next(hash, s, Edit(x, Some(text)));
    var tail := between + [Poll(x, true, true)];
    assert [Edit(x, Some(text))] + between + [Poll(x, true, true)] == [Edit(x, Some(text))] + tail;
    assert ([Edit(x, Some(text))] + tail)[1..] == tail;
    RunInSteps(hash, edited, between, [Poll(x, true, true)]);
    var before := Run(hash, edited, between);
    assert Run(hash, before, [Poll(x, true, true)]) == Next(hash, before, Poll(x, true, true));
    EditIsSent(hash, s, x, text, between);
  }

  lemma {:induction false} RunInSteps(hash: Text -> seq<byte>, s: System, a: seq<Event>, b: seq<Event>)
    requires WellFormed(s)
    ensures Run(hash, s, a + b) == Run(hash, Run(hash, s, a), b)
    decreases |a|
  {
    if a == [] {
      assert a + b == b;
    } else {
      assert (a + b)[1..] == a[1..] + b;
      RunInSteps(hash, Next(hash, s, a[0]), a[1..], b);
    }
  }

  /** A text the peer sent and the endpoint applied is not sent back: after it the endpoint owes nothing. */
  lemma AppliedTextIsNotEchoed(hash: Text -> seq<byte>, s: System, x: Side, events: seq<Event>)
    requires WellFormed(s) && s.toward[x] != [] && Valid(s.toward[x][0]) && forall e | e in events :: !(e.Edit? && e.at == x)
    ensures var t := Next(hash, s, Deliver(x, true, true, Takes));
            t.ends[x].cell == Some(s.toward[x][0]) && Run(hash, t, events).sends[x] <= s.sends[x]
  {
    var t := Next(hash, s, Deliver(x, true, true, Takes));
    EditsAreCounted(hash, t, events, x);
    SendsArePaidForByEdits(hash, t, events, x);
  }

  // -----------------------------------------------------------------------------------------------------------------
  // What gets into a clipboard
  // -----------------------------------------------------------------------------------------------------------------

  /** The clipboard at an endpoint may be changed: by its user, or by a text taken while sharing is on and permitted. */
  predicate MayWrite(s: System, e: Event, x: Side)
    requires WellFormed(s)
  {
    || (e.Edit? && e.at == x)
    || (e.Deliver? && e.at == x && e.enabled && e.permitted && s.toward[x] != [] && Valid(s.toward[x][0]))
  }

  ghost predicate NeverMayWrite(hash: Text -> seq<byte>, s: System, events: seq<Event>, x: Side)
    requires WellFormed(s)
    decreases |events|
  {
    events == [] || (!MayWrite(s, events[0], x) && NeverMayWrite(hash, Next(hash, s, events[0]), events[1..], x))
  }

  /** Over any run, whatever arrives: a clipboard that is switched off or not permitted stays as its user left it. */
  lemma {:induction false} OffLeavesTheClipboard(hash: Text -> seq<byte>, s: System, events: seq<Event>, x: Side)
    requires WellFormed(s) && NeverMayWrite(hash, s, events, x)
    ensures Run(hash, s, events).ends[x].cell == s.ends[x].cell
    decreases |events|
  {
    if events != [] { OffLeavesTheClipboard(hash, Next(hash, s, events[0]), events[1..], x); }
  }

  /** A text taken while sharing is on is in the clipboard until something may write there again. */
  lemma TakenTextIsThere(hash: Text -> seq<byte>, s: System, x: Side, events: seq<Event>)
    requires WellFormed(s) && s.toward[x] != [] && Valid(s.toward[x][0])
    requires var taken := Next(hash, s, Deliver(x, true, true, Takes)); NeverMayWrite(hash, taken, events, x)
    ensures var t := Run(hash, Next(hash, s, Deliver(x, true, true, Takes)), events);
            t.ends[x].cell == Some(s.toward[x][0])
  {
    OffLeavesTheClipboard(hash, Next(hash, s, Deliver(x, true, true, Takes)), events, x);
  }
}
