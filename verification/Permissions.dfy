/** The permission bit mask and the consent state machine of one session. */
module Permissions {
  import opened Wrappers

  datatype Permission =
    | Audio | Input | ClipboardText | ClipboardFiles | FileManager | Printing | Restart | Lock
    | SecureAttention | SystemInformation | Whiteboard | TcpTunnel | Vpn | Privacy | Recording
    | BlockLocalInput | RemotePointer | ViewDesktop | Chat

  /** The declaration order of the source's `repr(u8)` enumeration. */
  function Bit(p: Permission): (n: nat)
    ensures n < 19
  {
    match p
    case Audio => 0
    case Input => 1
    case ClipboardText => 2
    case ClipboardFiles => 3
    case FileManager => 4
    case Printing => 5
    case Restart => 6
    case Lock => 7
    case SecureAttention => 8
    case SystemInformation => 9
    case Whiteboard => 10
    case TcpTunnel => 11
    case Vpn => 12
    case Privacy => 13
    case Recording => 14
    case BlockLocalInput => 15
    case RemotePointer => 16
    case ViewDesktop => 17
    case Chat => 18
  }

  const VALID_BITS: bv64 := 0x7FFFF

  datatype Profile = Profile(bits: bv64)

  const NONE := Profile(0)

  datatype PermissionError = NotAccepted | Denied | UnknownPermission | InvalidTransition | Escalation

  function TryFrom(bits: bv64): Result<Profile, PermissionError> {
    if bits & !VALID_BITS != 0 then Err(UnknownPermission) else Ok(Profile(bits))
  }

  /** The mask of one permission, tabulated; MaskIsShift ties it to the shift the source computes. */
  function Mask(p: Permission): bv64 {
    match p
    case Audio => 0x1
    case Input => 0x2
    case ClipboardText => 0x4
    case ClipboardFiles => 0x8
    case FileManager => 0x10
    case Printing => 0x20
    case Restart => 0x40
    case Lock => 0x80
    case SecureAttention => 0x100
    case SystemInformation => 0x200
    case Whiteboard => 0x400
    case TcpTunnel => 0x800
    case Vpn => 0x1000
    case Privacy => 0x2000
    case Recording => 0x4000
    case BlockLocalInput => 0x8000
    case RemotePointer => 0x10000
    case ViewDesktop => 0x20000
    case Chat => 0x40000
  }

  lemma MaskIsShift(p: Permission)
    ensures Mask(p) == 1 << Bit(p)
  {
    match p
    case Audio => assert (1 as bv64) << 0 == 0x1;
    case Input => assert (1 as bv64) << 1 == 0x2;
    case ClipboardText => assert (1 as bv64) << 2 == 0x4;
    case ClipboardFiles => assert (1 as bv64) << 3 == 0x8;
    case FileManager => assert (1 as bv64) << 4 == 0x10;
    case Printing => assert (1 as bv64) << 5 == 0x20;
    case Restart => assert (1 as bv64) << 6 == 0x40;
    case Lock => assert (1 as bv64) << 7 == 0x80;
    case SecureAttention => assert (1 as bv64) << 8 == 0x100;
    case SystemInformation => assert (1 as bv64) << 9 == 0x200;
    case Whiteboard => assert (1 as bv64) << 10 == 0x400;
    case TcpTunnel => assert (1 as bv64) << 11 == 0x800;
    case Vpn => assert (1 as bv64) << 12 == 0x1000;
    case Privacy => assert (1 as bv64) << 13 == 0x2000;
    case Recording => assert (1 as bv64) << 14 == 0x4000;
    case BlockLocalInput => assert (1 as bv64) << 15 == 0x8000;
    case RemotePointer => assert (1 as bv64) << 16 == 0x10000;
    case ViewDesktop => assert (1 as bv64) << 17 == 0x20000;
    case Chat => assert (1 as bv64) << 18 == 0x40000;
  }

  function Of(values: seq<Permission>): Profile
  {
    if values == [] then NONE
    else Profile(Of(values[..|values| - 1]).bits | Mask(values[|values| - 1]))
  }

  function Shared(a: Profile, p: Permission): bv64 { a.bits & Mask(p) }

  predicate Allows(a: Profile, p: Permission) { Shared(a, p) != 0 }

  predicate IsSubsetOf(a: Profile, maximum: Profile) { a.bits & !maximum.bits == 0 }

  /** The meaning of a mask: the set of permissions it allows. */
  ghost function Meaning(a: Profile): set<Permission> {
    set p: Permission | Allows(a, p)
  }

  ghost predicate Known(a: Profile) { a.bits & !VALID_BITS == 0 }

  /** Distinct permissions occupy distinct bits. */
  lemma MasksAreDisjoint(p: Permission, q: Permission)
    ensures p == q <==> Mask(p) & Mask(q) != 0
    ensures Mask(p) & !VALID_BITS == 0
  {
  }

  lemma OfOneMore(init: seq<Permission>, last: Permission) returns (before: Profile, after: Profile)
    ensures before == Of(init) && after == Of(init + [last]) && after == Profile(before.bits | Mask(last))
  {
    assert (init + [last])[..|init|] == init;
    before, after := Of(init), Of(init + [last]);
  }

  lemma OneMoreAllows(init: seq<Permission>, last: Permission, p: Permission)
    ensures Allows(Of(init + [last]), p) <==> p == last || Allows(Of(init), p)
  {
    var before, after := OfOneMore(init, last);
    AddingAllowsOne(before, last, p);
  }

  /** Building a mask from a list allows exactly the listed permissions. */
  lemma {:induction false} OfAllowsItsValues(values: seq<Permission>, p: Permission)
    ensures Allows(Of(values), p) <==> p in values
  {
    if values == [] {
      NothingAllowed(p);
    } else {
      var init, last := values[..|values| - 1], values[|values| - 1];
      OfAllowsItsValues(init, p);
      OneMoreAllows(init, last, p);
      assert values == init + [last];
    }
  }

  lemma AddingAllowsOne(a: Profile, added: Permission, p: Permission)
    ensures Allows(Profile(a.bits | Mask(added)), p) <==> p == added || Allows(a, p)
  {
    if p == added { AddingAllows(a, p); } else { AddingLeavesOthers(a, added, p); }
  }

  lemma AddingAllows(a: Profile, p: Permission)
    ensures Shared(Profile(a.bits | Mask(p)), p) != 0
  {
    KeepsOwnBit(a.bits, Mask(p));
  }

  lemma AddingLeavesOthers(a: Profile, added: Permission, p: Permission)
    requires p != added
    ensures Shared(Profile(a.bits | Mask(added)), p) == Shared(a, p)
  {
    MasksAreDisjoint(added, p);
    KeepsOtherBits(a.bits, Mask(added), Mask(p));
  }

  /** A mask built from permissions never has an unknown bit, so the wire conversion accepts it. */
  lemma {:induction false} OfIsKnown(values: seq<Permission>)
    ensures TryFrom(Of(values).bits) == Ok(Of(values))
  {
    if values != [] {
      var init, last := values[..|values| - 1], values[|values| - 1];
      OfIsKnown(init);
      MasksAreDisjoint(last, last);
      UnionAllows(Of(init).bits, Mask(last), !VALID_BITS);
    }
  }

  lemma KeepsOwnBit(a: bv64, m: bv64)
    requires m != 0
    ensures (a | m) & m != 0
  {
  }

  lemma KeepsOtherBits(a: bv64, m: bv64, k: bv64)
    requires m & k == 0
    ensures (a | m) & k == a & k
  {
  }

  lemma NothingAllowed(p: Permission)
    ensures !Allows(NONE, p)
  {
  }

  lemma UnionAllows(a: bv64, b: bv64, m: bv64)
    ensures (a | b) & m != 0 <==> a & m != 0 || b & m != 0
  {
  }

  /** The bitwise test decides set inclusion for every mask the wire format admits. */
  lemma SubsetTestDecidesInclusion(a: Profile, maximum: Profile)
    requires Known(a)
    ensures IsSubsetOf(a, maximum) <==> Meaning(a) <= Meaning(maximum)
  {
    if IsSubsetOf(a, maximum) {
      forall p | p in Meaning(a) ensures p in Meaning(maximum) {
        AllowedIsInherited(a.bits, maximum.bits, Mask(p));
      }
    } else if Meaning(a) <= Meaning(maximum) {
      forall p: Permission ensures AllowsImplies(a, maximum, p) {
        assert p in Meaning(a) ==> p in Meaning(maximum);
      }
      BitByBit(a, maximum);
    }
  }

  lemma AllowedIsInherited(a: bv64, b: bv64, m: bv64)
    requires a & !b == 0
    ensures a & m != 0 ==> b & m != 0
  {
  }

  ghost predicate AllowsImplies(a: Profile, b: Profile, p: Permission) {
    Allows(a, p) ==> Allows(b, p)
  }

  lemma BitByBit(a: Profile, b: Profile)
    requires Known(a)
    requires forall p: Permission :: AllowsImplies(a, b, p)
    ensures IsSubsetOf(a, b)
  {
    assert AllowsImplies(a, b, Audio);
    assert AllowsImplies(a, b, Input);
    assert AllowsImplies(a, b, ClipboardText);
    assert AllowsImplies(a, b, ClipboardFiles);
    assert AllowsImplies(a, b, FileManager);
    assert AllowsImplies(a, b, Printing);
    assert AllowsImplies(a, b, Restart);
    assert AllowsImplies(a, b, Lock);
    assert AllowsImplies(a, b, SecureAttention);
    assert AllowsImplies(a, b, SystemInformation);
    assert AllowsImplies(a, b, Whiteboard);
    assert AllowsImplies(a, b, TcpTunnel);
    assert AllowsImplies(a, b, Vpn);
    assert AllowsImplies(a, b, Privacy);
    assert AllowsImplies(a, b, Recording);
    assert AllowsImplies(a, b, BlockLocalInput);
    assert AllowsImplies(a, b, RemotePointer);
    assert AllowsImplies(a, b, ViewDesktop);
    assert AllowsImplies(a, b, Chat);
  }

  /** Two masks off the wire that mean the same set are the same mask. */
  lemma KnownMasksAreTheirMeaning(a: Profile, b: Profile)
    requires Known(a) && Known(b) && Meaning(a) == Meaning(b)
    ensures a == b
  {
    SubsetTestDecidesInclusion(a, b);
    SubsetTestDecidesInclusion(b, a);
    MutualSubsets(a, b);
  }

  lemma MutualSubsets(a: Profile, b: Profile)
    requires IsSubsetOf(a, b) && IsSubsetOf(b, a)
    ensures a == b
  {
  }

  datatype Stage = Pending | Active | Rejected | Closed

  /** The consent of one session as a value: what it asked for, what it got, and how far it went. */
  datatype Grant = Grant(requested: Profile, granted: Profile, stage: Stage)

  /** Never more than was requested, and nothing at all outside the active stage. */
  ghost predicate Contained(g: Grant) {
    && IsSubsetOf(g.granted, g.requested)
    && (g.stage != Active ==> g.granted == NONE)
  }

  predicate Permits(g: Grant, p: Permission) {
    g.stage == Active && Allows(g.granted, p)
  }

  /** A consent lets through exactly what it granted: outside the active stage that is nothing. */
  lemma PermittedWasGranted(g: Grant, p: Permission)
    requires Contained(g)
    ensures Permits(g, p) <==> Allows(g.granted, p)
  {
    NothingShared(Mask(p));
  }

  lemma NothingShared(m: bv64)
    ensures 0 & m == 0
  {
  }

  /** What consent allows was always asked for. */
  lemma PermittedWasRequested(g: Grant, p: Permission)
    requires Contained(g) && Permits(g, p)
    ensures Allows(g.requested, p)
  {
    AllowedIsInherited(g.granted.bits, g.requested.bits, Mask(p));
  }

  class Consent {
    var requested: Profile
    var granted: Profile
    var stage: Stage

    ghost function Value(): Grant reads this { Grant(requested, granted, stage) }

    constructor (requested: Profile)
      ensures Value() == Grant(requested, NONE, Pending) && Contained(Value())
    {
      this.requested, granted, stage := requested, NONE, Pending;
      new;
      assert NONE.bits & !requested.bits == 0;
    }

    method Accept(granted: Profile) returns (r: Result<(), PermissionError>)
      requires Contained(Value())
      modifies this
      ensures Contained(Value()) && requested == old(requested)
      ensures r.Ok? <==> old(stage) == Pending && IsSubsetOf(granted, requested)
      ensures r.Ok? ==> stage == Active && this.granted == granted
      ensures r.Err? ==> Value() == old(Value())
      ensures r.Err? ==> r.error == if old(stage) != Pending then InvalidTransition else Escalation
    {
      if stage != Pending { return Err(InvalidTransition); }
      if !IsSubsetOf(granted, requested) { return Err(Escalation); }
      this.granted, stage := granted, Active;
      return Ok(());
    }

    method Reject() returns (r: Result<(), PermissionError>)
      requires Contained(Value())
      modifies this
      ensures Contained(Value()) && requested == old(requested)
      ensures r.Ok? <==> old(stage) == Pending
      ensures r.Ok? ==> stage == Rejected
      ensures r.Err? ==> Value() == old(Value()) && r.error == InvalidTransition
    {
      if stage != Pending { return Err(InvalidTransition); }
      stage := Rejected;
      return Ok(());
    }

    method ChangePermissions(granted: Profile) returns (r: Result<(), PermissionError>)
      requires Contained(Value())
      modifies this
      ensures Contained(Value()) && requested == old(requested) && stage == old(stage)
      ensures r.Ok? <==> stage == Active && IsSubsetOf(granted, requested)
      ensures r.Ok? ==> this.granted == granted
      ensures r.Err? ==> Value() == old(Value())
      ensures r.Err? ==> r.error == if stage != Active then InvalidTransition else Escalation
    {
      if stage != Active { return Err(InvalidTransition); }
      if !IsSubsetOf(granted, requested) { return Err(Escalation); }
      this.granted := granted;
      return Ok(());
    }

    method Require(p: Permission) returns (r: Result<(), PermissionError>)
      ensures r.Ok? <==> Permits(Value(), p)
      ensures r.Err? ==> r.error == if stage != Active then NotAccepted else Denied
    {
      if stage != Active { return Err(NotAccepted); }
      if !Allows(granted, p) { return Err(Denied); }
      return Ok(());
    }

    method Close()
      modifies this
      ensures Value() == Grant(old(requested), NONE, Closed) && Contained(Value())
    {
      granted, stage := NONE, Closed;
      assert NONE.bits & !requested.bits == 0;
    }
  }
}
