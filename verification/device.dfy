/**
 * The web console's device record: how it is built from the device API's
 * payload, the properties derived from it, the status chips shown for it, and
 * how it is written back to the API's shape.
 *
 * Dates are integer milliseconds since the epoch, and every reading of the
 * clock within one call is the parameter `now`. Parsing of the date strings
 * some API fields carry is the parameter `parse`. The shelf model is not
 * part of this model: a `Shelf` is known only by the payload it was built
 * from, and its serialiser is the parameter `shelfToApi`.
 */
module Devices {
  import opened Options

  /** Milliseconds since the epoch. */
  type Millis = int

  /** The shelf API payload, opaque here. */
  datatype ShelfApiParams = ShelfApiParams(payload: string)

  /** A shelf, known only by the (possibly missing) payload it was built from. */
  datatype Shelf = Shelf(source: Option<ShelfApiParams>)

  /** The device API's payload; every field may be missing. */
  datatype DeviceApiParams = DeviceApiParams(
    serialNumber: Option<string>,
    assetTag: Option<string>,
    damaged: Option<bool>,
    deviceModel: Option<string>,
    lastUpdate: Option<Millis>,
    shelf: Option<ShelfApiParams>,
    assignedUser: Option<string>,
    assignedOnDate: Option<Millis>,
    dueDate: Option<Millis>,
    currentOu: Option<string>,
    lastHeartbeat: Option<string>,
    lastKnownHealthy: Option<string>,
    lost: Option<bool>,
    locked: Option<bool>,
    pendingReturn: Option<bool>,
    markPendingReturnDate: Option<string>,
    maxExtendDate: Option<Millis>,
    guestEnabled: Option<bool>,
    guestPermitted: Option<bool>,
    returnDate: Option<string>)

  /** The payload with every field missing (the constructor's default argument). */
  const EmptyParams: DeviceApiParams :=
    DeviceApiParams(None, None, None, None, None, None, None, None, None, None,
                    None, None, None, None, None, None, None, None, None, None)

  datatype ChipColor = Primary | Accent | Warning | Ok {
    function Value(): string {
      match this
      case Primary => "primary"
      case Accent => "accent"
      case Warning => "warn"
      case Ok => "ok"
    }
  }

  datatype ChipStatus = Assigned | Damaged | Locked | Lost | PendingReturn | Overdue | Unassigned {
    function Value(): string {
      match this
      case Assigned => "Assigned"
      case Damaged => "Damaged"
      case Locked => "Locked"
      case Lost => "Lost"
      case PendingReturn => "Pending return"
      case Overdue => "Overdue"
      case Unassigned => "Unassigned"
    }

    /** Whether this is one of the three assignment statuses, of which a chip list shows exactly one. */
    predicate IsAssignment() {
      this == Unassigned || this == Overdue || this == Assigned
    }

    /** Position of a status in a chip list: the assignment status, then
        Locked, Lost, Pending return, Damaged. */
    function Rank(): nat {
      match this
      case Unassigned => 0
      case Overdue => 1
      case Assigned => 2
      case Locked => 3
      case Lost => 4
      case PendingReturn => 5
      case Damaged => 6
    }
  }

  datatype DeviceChip = DeviceChip(color: ChipColor, icon: string, labelText: string,
                                   status: ChipStatus, tooltip: string)

  datatype Device = Device(
    serialNumber: string,
    assetTag: string,
    deviceModel: string,
    lastUpdate: Millis,
    shelf: Shelf,
    assignedUser: string,
    assignedOnDate: Millis,
    damaged: bool,
    dueDate: Millis,
    currentOu: Option<string>,
    lastHeartbeat: Millis,
    lastKnownHealthy: Millis,
    lost: bool,
    locked: bool,
    pendingReturn: bool,
    guestEnabled: bool,
    guestAllowed: bool,
    maxExtendDate: Millis,
    returnDate: Millis,
    chips: seq<DeviceChip>)

  // ---------------------------------------------------------------------
  // Defaulting of missing API fields (JavaScript `||` on each kind of field)

  /** A string field: the value when present and non-empty, else `dflt`. */
  function TextOr(field: Option<string>, dflt: string): string {
    if field.Some? && field.value != "" then field.value else dflt
  }

  /** A string field without a default: missing and empty both stay missing. */
  function TextOrMissing(field: Option<string>): Option<string> {
    if field.Some? && field.value != "" then field else None
  }

  /** A numeric date: the value when present and non-zero, else the clock. */
  function DateOr(field: Option<Millis>, now: Millis): Millis {
    if field.Some? && field.value != 0 then field.value else now
  }

  /** A date string: its parse when present and non-empty, else the clock. */
  function ParsedDateOr(field: Option<string>, now: Millis, parse: string -> Millis): Millis {
    if field.Some? && field.value != "" then parse(field.value) else now
  }

  // ---------------------------------------------------------------------
  // Derived properties

  /** The asset tag, or the serial number when the device has no asset tag. */
  function Id(d: Device): (r: string)
    ensures r == d.assetTag || r == d.serialNumber
    ensures d.assetTag != "" ==> r == d.assetTag
    ensures r == "" <==> d.assetTag == "" && d.serialNumber == ""
  {
    if d.assetTag != "" then d.assetTag else d.serialNumber
  }

  /** Whether the loan may be extended. */
  function CanExtend(d: Device): (r: bool)
    ensures d.pendingReturn ==> !r
    ensures !d.pendingReturn ==> (r <==> d.dueDate < d.maxExtendDate)
  {
    !d.pendingReturn && d.dueDate < d.maxExtendDate
  }

  /** Milliseconds from `now` until the due date; negative once it has passed. */
  function TimeUntilDue(d: Device, now: Millis): (r: int)
    ensures now + r == d.dueDate
    ensures r < 0 <==> d.dueDate < now
  {
    d.dueDate - now
  }

  /** Whether an assigned device is held past its due date. */
  function IsOverdue(d: Device, now: Millis): (r: bool)
    ensures r <==> d.assignedUser != "" && d.dueDate < now
    ensures d.assignedUser == "" ==> !r
  {
    d.assignedUser != "" && TimeUntilDue(d, now) < 0
  }

  /** Once overdue, a device stays overdue as time passes. */
  lemma OverdueStaysOverdue(d: Device, now: Millis, later: Millis)
    requires IsOverdue(d, now) && now <= later
    ensures IsOverdue(d, later)
    ensures TimeUntilDue(d, later) <= TimeUntilDue(d, now) < 0
  {  }

  // ---------------------------------------------------------------------
  // Status chips

  /** The chip shown for a status; only the Assigned tooltip depends on the device. */
  function ChipFor(s: ChipStatus, user: string): (c: DeviceChip)
    ensures c.status == s && c.labelText == s.Value()
  {
    match s
    case Unassigned => DeviceChip(Ok, "person_outline", "Unassigned", Unassigned, "This device is unassigned.")
    case Overdue => DeviceChip(Warning, "event_busy", "Overdue", Overdue, "This device is being held past its due date.")
    case Assigned => DeviceChip(Primary, "person", "Assigned", Assigned, "This device is assigned to " + user)
    case Locked => DeviceChip(Warning, "lock", "Locked", Locked, "This device is locked.")
    case Lost => DeviceChip(Warning, "gps_off", "Lost", Lost, "This device was marked as lost.")
    case PendingReturn => DeviceChip(Accent, "exit_to_app", "Pending return", PendingReturn, "This device is pending return.")
    case Damaged => DeviceChip(Warning, "build", "Damaged", Damaged, "This device is marked as damaged.")
  }

  /** Whether a chip with status `s` belongs on the device's chip list at `now`. */
  predicate Shown(d: Device, now: Millis, s: ChipStatus) {
    match s
    case Unassigned => d.assignedUser == ""
    case Overdue => IsOverdue(d, now)
    case Assigned => d.assignedUser != "" && !IsOverdue(d, now)
    case Locked => d.locked
    case Lost => d.lost
    case PendingReturn => d.pendingReturn
    case Damaged => d.damaged
  }

  function Flag(b: bool): nat { if b then 1 else 0 }

  /** Number of the four condition flags (locked, lost, pending return, damaged) that are set. */
  function FlagCount(d: Device): nat {
    Flag(d.locked) + Flag(d.lost) + Flag(d.pendingReturn) + Flag(d.damaged)
  }

  /** Statuses in strictly increasing rank: no repeats, in the fixed order. */
  predicate Ranked(ss: seq<ChipStatus>) {
    forall i, j :: 0 <= i < j < |ss| ==> ss[i].Rank() < ss[j].Rank()
  }

  /** Every status on the list has a rank in `[lo, hi)`. */
  predicate RanksWithin(ss: seq<ChipStatus>, lo: nat, hi: nat) {
    forall i :: 0 <= i < |ss| ==> lo <= ss[i].Rank() < hi
  }

  /** What the statuses shown for a device at `now` must be: in rank order,
      and a status listed exactly when it applies. */
  predicate StatusContract(d: Device, now: Millis, ss: seq<ChipStatus>) {
    Ranked(ss) && forall s: ChipStatus :: s in ss <==> Shown(d, now, s)
  }

  /** The statuses of a chip list, position by position. */
  function StatusesOf(cs: seq<DeviceChip>): (ss: seq<ChipStatus>)
    ensures |ss| == |cs|
    ensures forall i :: 0 <= i < |cs| ==> ss[i] == cs[i].status
  {
    seq(|cs|, i requires 0 <= i < |cs| => cs[i].status)
  }

  /** The standard chip of each status, position by position. */
  function Render(ss: seq<ChipStatus>, user: string): (cs: seq<DeviceChip>)
    ensures |cs| == |ss|
    ensures forall i :: 0 <= i < |ss| ==> cs[i] == ChipFor(ss[i], user)
  {
    seq(|ss|, i requires 0 <= i < |ss| => ChipFor(ss[i], user))
  }

  /**
   * What a chip list must be for a device at `now`: each chip is the standard
   * chip of its status, and its statuses meet the status contract.
   */
  predicate ChipContract(d: Device, now: Millis, cs: seq<DeviceChip>) {
    cs == Render(StatusesOf(cs), d.assignedUser) && StatusContract(d, now, StatusesOf(cs))
  }

  /** Appending higher-ranked statuses keeps the list ranked. */
  lemma Append(a: seq<ChipStatus>, b: seq<ChipStatus>, lo: nat, k: nat, m: nat)
    requires Ranked(a) && RanksWithin(a, lo, k)
    requires Ranked(b) && RanksWithin(b, k, m) && lo <= k <= m
    ensures Ranked(a + b) && RanksWithin(a + b, lo, m)
  {  }

  /** The status `s` when `flag` is set, else nothing. */
  function StatusIf(flag: bool, s: ChipStatus): (r: seq<ChipStatus>)
    ensures |r| == Flag(flag)
    ensures Ranked(r) && RanksWithin(r, s.Rank(), s.Rank() + 1)
    ensures forall t :: t in r <==> flag && t == s
  {
    if flag then [s] else []
  }

  /** The assignment status: Unassigned, Overdue or Assigned. */
  function AssignmentStatus(d: Device, now: Millis): (s: ChipStatus)
    ensures s.IsAssignment() && Shown(d, now, s)
  {
    if d.assignedUser == "" then Unassigned
    else if IsOverdue(d, now) then Overdue
    else Assigned
  }

  /** Locked, Lost, Pending return and Damaged, in that order, each when its flag is set. */
  function ConditionStatuses(d: Device): (t: seq<ChipStatus>)
    ensures |t| == FlagCount(d)
    ensures Ranked(t) && RanksWithin(t, Locked.Rank(), Damaged.Rank() + 1)
    ensures forall s :: s in t <==> HasCondition(d, s)
  {
    var r1 := StatusIf(d.locked, Locked);
    var r2 := StatusIf(d.lost, Lost);
    var r3 := StatusIf(d.pendingReturn, PendingReturn);
    var r4 := StatusIf(d.damaged, Damaged);
    Append(r1, r2, 3, 4, 5);
    Append(r1 + r2, r3, 3, 5, 6);
    Append(r1 + r2 + r3, r4, 3, 6, 7);
    var t := r1 + r2 + r3 + r4;
    forall s
      ensures s in t <==> HasCondition(d, s)
    {
      assert s in t <==> s in r1 || s in r2 || s in r3 || s in r4;
    }
    t
  }

  /** Whether `s` is a condition status whose flag the device has set. */
  predicate HasCondition(d: Device, s: ChipStatus) {
    match s
    case Locked => d.locked
    case Lost => d.lost
    case PendingReturn => d.pendingReturn
    case Damaged => d.damaged
    case _ => false
  }

  /** Exactly one assignment status applies; a condition status applies when its flag is set. */
  lemma ShownSplit(d: Device, now: Millis, s: ChipStatus)
    ensures Shown(d, now, s) <==>
      if s.IsAssignment() then s == AssignmentStatus(d, now) else HasCondition(d, s)
  {  }

  /**
   * The statuses shown for the device at `now`: its assignment status, then
   * the condition statuses.
   */
  function ShownStatuses(d: Device, now: Millis): (ss: seq<ChipStatus>)
    ensures |ss| == 1 + FlagCount(d)
    ensures ss[0].IsAssignment()
    ensures forall i :: 1 <= i < |ss| ==> !ss[i].IsAssignment()
    ensures StatusContract(d, now, ss)
  {
    AssignmentFirst(d, now);
    AssignmentOnlyFirst(d, now);
    ShownListed(d, now);
    [AssignmentStatus(d, now)] + ConditionStatuses(d)
  }

  /** The assignment status leads, ranked before every condition status. */
  lemma AssignmentFirst(d: Device, now: Millis)
    ensures Ranked([AssignmentStatus(d, now)] + ConditionStatuses(d))
  {  }

  /** No assignment status follows the first. */
  lemma AssignmentOnlyFirst(d: Device, now: Millis)
    ensures var ss := [AssignmentStatus(d, now)] + ConditionStatuses(d);
      forall i :: 1 <= i < |ss| ==> !ss[i].IsAssignment()
  {  }

  /** Every status that applies is listed, and nothing else. */
  lemma ShownListed(d: Device, now: Millis)
    ensures var ss := [AssignmentStatus(d, now)] + ConditionStatuses(d);
      forall s :: s in ss <==> Shown(d, now, s)
  {
    forall s ensures s in [AssignmentStatus(d, now)] + ConditionStatuses(d) <==> Shown(d, now, s) {
      ShownSplit(d, now, s);
    }
  }

  /**
   * The chips for the device's state at `now`. The source's third branch
   * re-tests that a user is assigned, which always holds there, so exactly
   * one assignment chip is made.
   */
  function MakeChips(d: Device, now: Millis): (r: seq<DeviceChip>)
    ensures |r| == 1 + FlagCount(d)
    ensures r[0].status.IsAssignment()
    ensures r[0].status == Unassigned <==> d.assignedUser == ""
    ensures r[0].status == Overdue <==> d.assignedUser != "" && d.dueDate < now
    ensures r[0].status == Assigned <==> d.assignedUser != "" && now <= d.dueDate
    ensures forall i :: 1 <= i < |r| ==> !r[i].status.IsAssignment()
    ensures ChipContract(d, now, r)
  {
    var ss := ShownStatuses(d, now);
    var r := Render(ss, d.assignedUser);
    assert StatusesOf(r) == ss;
    assert Shown(d, now, r[0].status);
    r
  }

  /** Two ranked lists with the same members and the same head share every later member. */
  lemma TailMember(a: seq<ChipStatus>, b: seq<ChipStatus>, s: ChipStatus)
    requires Ranked(a) && Ranked(b)
    requires forall t :: t in a <==> t in b
    requires 0 < |a| && 0 < |b| && a[0] == b[0]
    requires s in a[1..]
    ensures s in b[1..]
  {
    var k :| 0 <= k < |a| - 1 && a[1..][k] == s;
    assert a[k + 1] == s;
    assert s in b;
    var m :| 0 <= m < |b| && b[m] == s;
    assert m != 0 by { assert a[0].Rank() < a[k + 1].Rank(); }
    assert b[1..][m - 1] == s;
  }

  /** Two rank-ordered status lists with the same members are equal. */
  lemma {:induction false} RankedListsAgree(a: seq<ChipStatus>, b: seq<ChipStatus>)
    requires Ranked(a) && Ranked(b)
    requires forall s :: s in a <==> s in b
    ensures a == b
    decreases |a|
  {
    if |a| == 0 {
      assert forall s :: multiset(b)[s] == 0 by {
        forall s ensures multiset(b)[s] == 0 {
          assert s !in a;
        }
      }
      assert multiset(b) == multiset{};
      assert |b| == |multiset(b)| == 0;
    } else {
      assert a[0] in b;
      assert |b| > 0;
      assert b[0] in a;
      assert a[0] == b[0];
      var a', b' := a[1..], b[1..];
      forall s
        ensures s in a' <==> s in b'
      {
        if s in a' { TailMember(a, b, s); }
        if s in b' { TailMember(b, a, s); }
      }
      RankedListsAgree(a', b');
      assert a == [a[0]] + a';
      assert b == [b[0]] + b';
    }
  }

  /** The chip contract admits exactly one chip list: the one MakeChips builds. */
  lemma ChipContractDetermines(d: Device, now: Millis, cs: seq<DeviceChip>)
    requires ChipContract(d, now, cs)
    ensures cs == MakeChips(d, now)
  {
    var r := MakeChips(d, now);
    RankedListsAgree(StatusesOf(cs), StatusesOf(r));
  }

  /** The chips depend on the state of the device, not on the chips it already holds. */
  lemma ChipsIgnoreChips(d: Device, chips: seq<DeviceChip>, now: Millis)
    ensures MakeChips(d.(chips := chips), now) == MakeChips(d, now)
  {  }

  // ---------------------------------------------------------------------
  // Construction from, and serialisation to, the API payload

  /** A record as the constructor leaves it: chips computed at `now`, and an
      OU that is either missing or non-empty. */
  predicate Constructed(d: Device, now: Millis) {
    d.chips == MakeChips(d, now) && d.currentOu != Some("")
  }


  /** The fields the Device constructor fills in, each defaulted from its API field. */
  function Defaults(p: DeviceApiParams, now: Millis, parse: string -> Millis): (d: Device)
    ensures d.serialNumber == p.serialNumber.GetOr("")
    ensures d.assetTag == p.assetTag.GetOr("")
    ensures d.deviceModel == p.deviceModel.GetOr("")
    ensures d.assignedUser == p.assignedUser.GetOr("")
    ensures d.currentOu.Some? <==> p.currentOu.Some? && p.currentOu.value != ""
    ensures d.currentOu.Some? ==> d.currentOu == p.currentOu
    ensures d.damaged == p.damaged.GetOr(false)
    ensures d.lost == p.lost.GetOr(false) && d.locked == p.locked.GetOr(false)
    ensures d.guestEnabled == p.guestEnabled.GetOr(false)
    ensures d.guestAllowed == p.guestPermitted.GetOr(false)
    ensures d.pendingReturn <==>
              (p.markPendingReturnDate.Some? && p.markPendingReturnDate.value != "")
              || p.pendingReturn == Some(true)
    ensures p.dueDate == None || p.dueDate == Some(0) ==> d.dueDate == now
    ensures p.dueDate.Some? && p.dueDate.value != 0 ==> d.dueDate == p.dueDate.value
    ensures d.lastUpdate == (if p.lastUpdate.Some? && p.lastUpdate.value != 0 then p.lastUpdate.value else now)
    ensures d.assignedOnDate == (if p.assignedOnDate.Some? && p.assignedOnDate.value != 0 then p.assignedOnDate.value else now)
    ensures d.maxExtendDate == (if p.maxExtendDate.Some? && p.maxExtendDate.value != 0 then p.maxExtendDate.value else now)
    ensures p.lastHeartbeat == None || p.lastHeartbeat == Some("") ==> d.lastHeartbeat == now
    ensures p.lastHeartbeat.Some? && p.lastHeartbeat.value != "" ==> d.lastHeartbeat == parse(p.lastHeartbeat.value)
    ensures p.lastKnownHealthy == None || p.lastKnownHealthy == Some("") ==> d.lastKnownHealthy == now
    ensures p.lastKnownHealthy.Some? && p.lastKnownHealthy.value != "" ==> d.lastKnownHealthy == parse(p.lastKnownHealthy.value)
    ensures p.returnDate == None || p.returnDate == Some("") ==> d.returnDate == now
    ensures p.returnDate.Some? && p.returnDate.value != "" ==> d.returnDate == parse(p.returnDate.value)
    ensures d.shelf == Shelf(p.shelf)
  {
    Device(
      TextOr(p.serialNumber, ""),
      TextOr(p.assetTag, ""),
      TextOr(p.deviceModel, ""),
      DateOr(p.lastUpdate, now),
      Shelf(p.shelf),
      TextOr(p.assignedUser, ""),
      DateOr(p.assignedOnDate, now),
      p.damaged.GetOr(false),
      DateOr(p.dueDate, now),
      TextOrMissing(p.currentOu),
      ParsedDateOr(p.lastHeartbeat, now, parse),
      ParsedDateOr(p.lastKnownHealthy, now, parse),
      p.lost.GetOr(false),
      p.locked.GetOr(false),
      (p.markPendingReturnDate.Some? && p.markPendingReturnDate.value != "") || p.pendingReturn.GetOr(false),
      p.guestEnabled.GetOr(false),
      p.guestPermitted.GetOr(false),
      DateOr(p.maxExtendDate, now),
      ParsedDateOr(p.returnDate, now, parse),
      [])
  }

  /**
   * The Device constructor, with `now` the clock reading it makes: the
   * defaulted fields, and the chips for them computed at `now`.
   */
  function FromApi(p: DeviceApiParams, now: Millis, parse: string -> Millis): (d: Device)
    ensures d == Defaults(p, now, parse).(chips := d.chips)
    ensures Constructed(d, now)
  {
    var base := Defaults(p, now, parse);
    var chips := MakeChips(base, now);
    ChipsIgnoreChips(base, chips, now);
    base.(chips := chips)
  }

  /** A device built from an empty payload: unassigned, no flags, every date `now`. */
  lemma EmptyDevice(now: Millis, parse: string -> Millis)
    ensures var d := FromApi(EmptyParams, now, parse);
      && Id(d) == "" && !CanExtend(d) && !IsOverdue(d, now)
      && d.chips == [ChipFor(Unassigned, "")]
  {  }

  /** The Device's API message: dates as milliseconds; damage and the date strings are not emitted. */
  function ToApiMessage(d: Device, shelfToApi: Shelf -> ShelfApiParams): (m: DeviceApiParams)
    ensures m.damaged == None && m.returnDate == None && m.markPendingReturnDate == None
    ensures m.lastHeartbeat == None && m.lastKnownHealthy == None
    ensures m.serialNumber == Some(d.serialNumber) && m.assetTag == Some(d.assetTag)
    ensures m.assignedUser == Some(d.assignedUser) && m.deviceModel == Some(d.deviceModel)
    ensures m.locked == Some(d.locked) && m.lost == Some(d.lost) && m.pendingReturn == Some(d.pendingReturn)
    ensures m.guestEnabled == Some(d.guestEnabled) && m.guestPermitted == Some(d.guestAllowed)
    ensures m.dueDate == Some(d.dueDate) && m.maxExtendDate == Some(d.maxExtendDate)
    ensures m.lastUpdate == Some(d.lastUpdate) && m.assignedOnDate == Some(d.assignedOnDate)
    ensures m.currentOu == d.currentOu
  {
    DeviceApiParams(
      Some(d.serialNumber),
      Some(d.assetTag),
      None,
      Some(d.deviceModel),
      Some(d.lastUpdate),
      Some(shelfToApi(d.shelf)),
      Some(d.assignedUser),
      Some(d.assignedOnDate),
      Some(d.dueDate),
      d.currentOu,
      None,
      None,
      Some(d.lost),
      Some(d.locked),
      Some(d.pendingReturn),
      None,
      Some(d.maxExtendDate),
      Some(d.guestEnabled),
      Some(d.guestAllowed),
      None)
  }

  /**
   * Rebuilding a device from its API message keeps its identity, user, flags
   * and non-zero dates; damage is lost, the date strings and zero dates become
   * the new clock reading, and the chips are recomputed at that reading.
   */
  lemma ApiRoundTrip(d: Device, shelfToApi: Shelf -> ShelfApiParams, now: Millis, parse: string -> Millis)
    ensures var e := FromApi(ToApiMessage(d, shelfToApi), now, parse);
      && e.serialNumber == d.serialNumber && e.assetTag == d.assetTag && Id(e) == Id(d)
      && e.deviceModel == d.deviceModel && e.assignedUser == d.assignedUser
      && e.locked == d.locked && e.lost == d.lost && e.pendingReturn == d.pendingReturn
      && e.guestEnabled == d.guestEnabled && e.guestAllowed == d.guestAllowed
      && (d.currentOu != Some("") ==> e.currentOu == d.currentOu)
      && !e.damaged
      && (d.dueDate != 0 ==> e.dueDate == d.dueDate)
      && (d.maxExtendDate != 0 ==> e.maxExtendDate == d.maxExtendDate)
      && (d.lastUpdate != 0 ==> e.lastUpdate == d.lastUpdate)
      && (d.assignedOnDate != 0 ==> e.assignedOnDate == d.assignedOnDate)
      && e.lastHeartbeat == now && e.lastKnownHealthy == now && e.returnDate == now
      && e.shelf == Shelf(Some(shelfToApi(d.shelf)))
      && e.chips == MakeChips(e, now)
  {  }

  /** A round trip through the API message keeps every derived property
      except the damage chip, as long as the dates are non-zero. */
  lemma RoundTripKeepsDerived(d: Device, shelfToApi: Shelf -> ShelfApiParams, now: Millis, parse: string -> Millis)
    requires d.dueDate != 0 && d.maxExtendDate != 0
    ensures var e := FromApi(ToApiMessage(d, shelfToApi), now, parse);
      && CanExtend(e) == CanExtend(d)
      && IsOverdue(e, now) == IsOverdue(d, now)
      && e.chips == MakeChips(d.(damaged := false), now)
  {  }

  /**
   * A payload with every emitted field present, non-empty and non-zero, and
   * no pending-return date string, comes back unchanged in the message of
   * the device built from it.
   */
  lemma MessageKeepsCompletePayload(p: DeviceApiParams, shelfToApi: Shelf -> ShelfApiParams,
                                    now: Millis, parse: string -> Millis)
    requires p.serialNumber.Some? && p.assetTag.Some? && p.deviceModel.Some? && p.assignedUser.Some?
    requires p.lastUpdate.Some? && p.lastUpdate.value != 0
    requires p.assignedOnDate.Some? && p.assignedOnDate.value != 0
    requires p.dueDate.Some? && p.dueDate.value != 0
    requires p.maxExtendDate.Some? && p.maxExtendDate.value != 0
    requires p.currentOu != Some("")
    requires p.lost.Some? && p.locked.Some? && p.pendingReturn.Some?
    requires p.guestEnabled.Some? && p.guestPermitted.Some?
    requires p.markPendingReturnDate.None?
    ensures var m := ToApiMessage(FromApi(p, now, parse), shelfToApi);
      && m.serialNumber == p.serialNumber && m.assetTag == p.assetTag
      && m.deviceModel == p.deviceModel && m.assignedUser == p.assignedUser
      && m.lastUpdate == p.lastUpdate && m.assignedOnDate == p.assignedOnDate
      && m.dueDate == p.dueDate && m.maxExtendDate == p.maxExtendDate
      && m.currentOu == p.currentOu
      && m.lost == p.lost && m.locked == p.locked && m.pendingReturn == p.pendingReturn
      && m.guestEnabled == p.guestEnabled && m.guestPermitted == p.guestPermitted
  {  }
}
