/**
 * The browser-side protocol manager (protocol-manager.js): the internal
 * protocols an operator can be assigned under, their matching to an
 * operator's department and a service, new protocol ids, status toggling and
 * the capped action history. The clock is a parameter (milliseconds since the
 * epoch), and a date that does not parse is None.
 */
module ProtocolManagement {
  import opened Wrappers
  import opened Strings
  import opened Sorting

  datatype Protocol = Protocol(
    protocolId: string,
    serviceCode: string,
    applicableDepartments: seq<string>,
    totalCommissionRate: real,
    recommended: bool,
    status: string,
    effectiveDate: Option<int>,
    expiryDate: Option<int>,
    updatedAt: int)

  // ---------------------------------------------------------------------
  // Matching
  // ---------------------------------------------------------------------

  /** isProtocolEffective: between the two dates, both included; an invalid date compares false. */
  predicate IsProtocolEffective(p: Protocol, now: int) {
    p.effectiveDate.Some? && p.expiryDate.Some? && p.effectiveDate.value <= now <= p.expiryDate.value
  }

  /**
   * A protocol is effective at the instants its effective and expiry dates
   * stand for, and at no moment outside them. A date-only expiry such as
   * "2025-12-31" stands for midnight at the start of that day, so the last
   * day itself is not covered.
   */
  lemma EffectiveBoundsInclusive(p: Protocol, now: int)
    requires p.effectiveDate.Some? && p.expiryDate.Some? && p.effectiveDate.value <= p.expiryDate.value
    ensures IsProtocolEffective(p, p.effectiveDate.value) && IsProtocolEffective(p, p.expiryDate.value)
    ensures now < p.effectiveDate.value || now > p.expiryDate.value ==> !IsProtocolEffective(p, now)
  {
  }

  /** A protocol with an invalid date is never effective. */
  lemma InvalidDateNeverEffective(p: Protocol, now: int)
    requires p.effectiveDate.None? || p.expiryDate.None?
    ensures !IsProtocolEffective(p, now)
  {
  }

  /** The first filter of getMatchingProtocols. */
  function Usable(now: int): (f: Protocol -> bool)
    ensures forall p :: f(p) <==> p.status == "ACTIVE" && IsProtocolEffective(p, now)
  {
    (p: Protocol) => p.status == "ACTIVE" && IsProtocolEffective(p, now)
  }

  /** The second filter: the department is listed and the service is the one asked for, or ALL. */
  function Fits(operatorDepartment: string, serviceCode: string): (f: Protocol -> bool)
    ensures forall p :: f(p) <==>
      operatorDepartment in p.applicableDepartments && (p.serviceCode == serviceCode || p.serviceCode == "ALL")
  {
    (p: Protocol) => operatorDepartment in p.applicableDepartments && (p.serviceCode == serviceCode || p.serviceCode == "ALL")
  }

  /**
   * The sort comparator read as "a may come before b": a recommended protocol
   * before one that is not, and between two alike the higher total commission
   * first.
   */
  function ByRecommendation(): (leq: (Protocol, Protocol) -> bool)
    ensures forall a, b :: leq(a, b) <==>
      (a.recommended && !b.recommended) || (a.recommended == b.recommended && a.totalCommissionRate >= b.totalCommissionRate)
  {
    (a: Protocol, b: Protocol) =>
      (a.recommended && !b.recommended) || (a.recommended == b.recommended && a.totalCommissionRate >= b.totalCommissionRate)
  }

  /** getMatchingProtocols: the usable protocols that fit, stably sorted by the comparator. */
  function GetMatchingProtocols(protocols: seq<Protocol>, operatorDepartment: string, serviceCode: string, now: int): (r: seq<Protocol>)
    ensures multiset(r) == multiset(Filter(Filter(protocols, Usable(now)), Fits(operatorDepartment, serviceCode)))
  {
    SortBy(Filter(Filter(protocols, Usable(now)), Fits(operatorDepartment, serviceCode)), ByRecommendation())
  }

  /**
   * The result holds exactly the active, effective protocols of the
   * department that cover the service; recommended ones come first, and
   * within each group the total commission does not increase.
   */
  lemma GetMatchingProtocolsCorrect(protocols: seq<Protocol>, operatorDepartment: string, serviceCode: string, now: int)
    ensures var r := GetMatchingProtocols(protocols, operatorDepartment, serviceCode, now);
      forall p :: p in r <==>
        p in protocols && p.status == "ACTIVE" && IsProtocolEffective(p, now) &&
        operatorDepartment in p.applicableDepartments && (p.serviceCode == serviceCode || p.serviceCode == "ALL")
    ensures var r := GetMatchingProtocols(protocols, operatorDepartment, serviceCode, now);
      forall j, k :: 0 <= j < k < |r| ==> r[j].recommended || !r[k].recommended
    ensures var r := GetMatchingProtocols(protocols, operatorDepartment, serviceCode, now);
      forall j, k :: 0 <= j < k < |r| && r[j].recommended == r[k].recommended ==>
        r[j].totalCommissionRate >= r[k].totalCommissionRate
  {
    var usable := Filter(protocols, Usable(now));
    var f := Filter(usable, Fits(operatorDepartment, serviceCode));
    var leq := ByRecommendation();
    var r := GetMatchingProtocols(protocols, operatorDepartment, serviceCode, now);
    assert IsTotalPreorder(leq);
    SortBySorted(f, leq);
    forall p ensures p in r <==> p in f {
      assert p in r <==> p in multiset(r);
      assert p in f <==> p in multiset(f);
    }
    forall j, k | 0 <= j < k < |r| ensures r[j].recommended || !r[k].recommended {
      assert leq(r[j], r[k]);
    }
    forall j, k | 0 <= j < k < |r| && r[j].recommended == r[k].recommended
      ensures r[j].totalCommissionRate >= r[k].totalCommissionRate
    {
      assert leq(r[j], r[k]);
    }
  }

  // ---------------------------------------------------------------------
  // Protocol ids
  // ---------------------------------------------------------------------

  /** The leading decimal digits of s. */
  function LeadingDigits(s: string): (d: string)
    ensures |d| <= |s| && d == s[..|d|]
    ensures AllDigits(d)
    ensures |d| < |s| ==> !IsDigit(s[|d|])
  {
    if |s| > 0 && IsDigit(s[0]) then
      var rest := LeadingDigits(s[1..]);
      assert s[1..][..|rest|] == s[1..|rest| + 1];
      [s[0]] + rest
    else []
  }

  /**
   * parseInt(s) for text without leading white space or a hexadecimal prefix:
   * an optional sign followed by the leading digits; None stands for NaN.
   */
  function ParseInt(s: string): (n: Option<int>)
    ensures n.None? <==>
      (var t := if |s| > 0 && (s[0] == '-' || s[0] == '+') then s[1..] else s; |t| == 0 || !IsDigit(t[0]))
  {
    if |s| > 0 && (s[0] == '-' || s[0] == '+') then
      var d := LeadingDigits(s[1..]);
      if d == [] then None else Some(if s[0] == '-' then -(DigitsValue(d) as int) else DigitsValue(d) as int)
    else
      var d := LeadingDigits(s);
      if d == [] then None else Some(DigitsValue(d))
  }

  /** A numeral reads back as its value. */
  lemma ParseIntOfDigits(d: string)
    requires AllDigits(d) && |d| > 0
    ensures ParseInt(d) == Some(DigitsValue(d))
  {
    assert IsDigit(d[0]);
    var l := LeadingDigits(d);
    assert |l| == |d|;
    assert l == d[..|d|] == d;
  }

  /** The number of a protocol id: parseInt of the id with its first "PROTO" removed. */
  function ProtocolNumber(protocolId: string): (n: Option<int>)
    ensures !Contains(protocolId, "PROTO") ==> n == ParseInt(protocolId)
  {
    ParseInt(ReplaceFirst(protocolId, "PROTO", ""))
  }

  /** "PROTO" followed by the number, zero-padded to three digits. */
  function ProtocolIdFor(n: nat): (id: string)
    ensures |id| >= 8 && id[..5] == "PROTO" && AllDigits(id[5..])
  {
    var digits := PadStart(NatToString(n), 3, '0');
    PaddedValue(n, 3);
    assert ("PROTO" + digits)[5..] == digits;
    "PROTO" + digits
  }

  /** The id made for a number carries that number. */
  lemma ProtocolIdForNumber(n: nat)
    ensures ProtocolNumber(ProtocolIdFor(n)) == Some(n)
  {
    var digits := PadStart(NatToString(n), 3, '0');
    var id := ProtocolIdFor(n);
    PaddedValue(n, 3);
    assert id == "PROTO" + digits;
    assert IsPrefix("PROTO", id);
    assert id[|"PROTO"|..] == digits;
    assert ReplaceFirst(id, "PROTO", "") == digits;
    ParseIntOfDigits(digits);
  }

  /** Every id has a number. */
  predicate AllNumbered(protocols: seq<Protocol>) {
    forall i :: 0 <= i < |protocols| ==> ProtocolNumber(protocols[i].protocolId).Some?
  }

  /** No id has a number above m. */
  predicate NumbersAtMost(protocols: seq<Protocol>, m: int) {
    forall i :: 0 <= i < |protocols| && ProtocolNumber(protocols[i].protocolId).Some? ==>
      ProtocolNumber(protocols[i].protocolId).value <= m
  }

  /** The two predicates on a list, from its initial part and its last protocol. */
  lemma NumberedSnoc(protocols: seq<Protocol>)
    requires protocols != []
    ensures var init, n := protocols[..|protocols| - 1], ProtocolNumber(protocols[|protocols| - 1].protocolId);
      (AllNumbered(protocols) <==> AllNumbered(init) && n.Some?) &&
      forall m :: NumbersAtMost(protocols, m) <==> NumbersAtMost(init, m) && (n.Some? ==> n.value <= m)
  {
    var init := protocols[..|protocols| - 1];
    assert forall i :: 0 <= i < |init| ==> init[i] == protocols[i];
  }

  /**
   * The reduce of generateProtocolId: Math.max from 0 over the ids' numbers,
   * where one NaN number makes the maximum NaN from then on.
   */
  function MaxProtocolNumber(protocols: seq<Protocol>): (m: Option<int>)
    ensures m.Some? <==> AllNumbered(protocols)
    ensures m.Some? ==> m.value >= 0 && NumbersAtMost(protocols, m.value)
  {
    if protocols == [] then Some(0)
    else
      var init := protocols[..|protocols| - 1];
      NumberedSnoc(protocols);
      var acc := MaxProtocolNumber(init);
      var n := ProtocolNumber(protocols[|protocols| - 1].protocolId);
      if acc.None? || n.None? then None
      else Some(if n.value > acc.value then n.value else acc.value)
  }

  /** generateProtocolId as written: one id without a number turns the result into "PROTONaN". */
  function GenerateProtocolId(protocols: seq<Protocol>): (id: string)
    ensures id == "PROTONaN" <==> MaxProtocolNumber(protocols).None?
  {
    match MaxProtocolNumber(protocols)
    case None => "PROTONaN"
    case Some(m) =>
      var id := ProtocolIdFor(m + 1);
      assert id[5] != 'N' by {
        assert id[5] == id[5..][0];
      }
      id
  }

  /** When every id has a number, the new id's number is above all of them, so the id is new. */
  lemma GeneratedIdExceedsEveryNumber(protocols: seq<Protocol>)
    requires AllNumbered(protocols)
    ensures ProtocolNumber(GenerateProtocolId(protocols)).Some?
    ensures forall i :: 0 <= i < |protocols| ==>
      ProtocolNumber(protocols[i].protocolId).value < ProtocolNumber(GenerateProtocolId(protocols)).value
    ensures forall i :: 0 <= i < |protocols| ==> protocols[i].protocolId != GenerateProtocolId(protocols)
  {
    var m := MaxProtocolNumber(protocols).value;
    ProtocolIdForNumber(m + 1);
  }

  /** "PROTO_OCEAN_001" has no number: parseInt meets "_" first. */
  lemma OceanIdHasNoNumber()
    ensures ProtocolNumber("PROTO_OCEAN_001").None?
  {
    var id := "PROTO_OCEAN_001";
    assert IsPrefix("PROTO", id);
    assert ReplaceFirst(id, "PROTO", "") == id[5..];
    assert id[5..][0] == '_';
  }

  /** The id the protocol server gives a new protocol: "PROT" followed by the time in milliseconds. */
  function ServerProtocolId(millis: nat): (id: string)
    ensures |id| >= 5 && id[..4] == "PROT" && AllDigits(id[4..])
  {
    var d := NatToString(millis);
    assert ("PROT" + d)[4..] == d;
    "PROT" + d
  }

  /** A server id has no number: it does not start with "PROTO", and parseInt meets "P" first. */
  lemma ServerIdHasNoNumber(millis: nat)
    ensures ProtocolNumber(ServerProtocolId(millis)).None?
  {
    var id := ServerProtocolId(millis);
    assert id[4] == id[4..][0];
    assert !IsPrefix("PROTO", id) by {
      assert id[..5][4] == id[4];
    }
    var rest := ReplaceFirst(id[1..], "PROTO", "");
    assert ReplaceFirst(id, "PROTO", "") == [id[0]] + rest;
    assert ([id[0]] + rest)[0] == 'P';
  }

  /**
   * Once protocols are loaded from the server, whose ids have no number, the
   * id generated is "PROTONaN", and once a protocol carries it the next one
   * generated is the same id again.
   */
  lemma UnnumberedIdRepeatsNaN(p: Protocol, millis: nat)
    requires p.protocolId == ServerProtocolId(millis)
    ensures GenerateProtocolId([p]) == "PROTONaN"
    ensures var ps := [p, p.(protocolId := "PROTONaN")]; GenerateProtocolId(ps) == ps[1].protocolId
  {
    ServerIdHasNoNumber(millis);
    var one, two := [p], [p, p.(protocolId := "PROTONaN")];
    assert ProtocolNumber(one[0].protocolId).None? && ProtocolNumber(two[0].protocolId).None?;
  }

  /** The maximum over the ids that have a number, from 0; the other ids are passed over. */
  function MaxNumbered(protocols: seq<Protocol>): (m: nat)
    ensures NumbersAtMost(protocols, m)
  {
    if protocols == [] then 0
    else
      var init := protocols[..|protocols| - 1];
      assert forall i :: 0 <= i < |init| ==> init[i] == protocols[i];
      var acc := MaxNumbered(init);
      var n := ProtocolNumber(protocols[|protocols| - 1].protocolId);
      if n.Some? && n.value > acc then n.value else acc
  }

  /** generateProtocolId with ids that have no number left out of the maximum. */
  function CorrectedGenerateProtocolId(protocols: seq<Protocol>): (id: string)
    ensures ProtocolNumber(id) == Some(MaxNumbered(protocols) + 1)
  {
    ProtocolIdForNumber(MaxNumbered(protocols) + 1);
    ProtocolIdFor(MaxNumbered(protocols) + 1)
  }

  /** The corrected id is new whatever the ids already present. */
  lemma CorrectedIdIsNew(protocols: seq<Protocol>)
    ensures forall i :: 0 <= i < |protocols| ==> protocols[i].protocolId != CorrectedGenerateProtocolId(protocols)
  {
    var id := CorrectedGenerateProtocolId(protocols);
    forall i | 0 <= i < |protocols| ensures protocols[i].protocolId != id {
      if ProtocolNumber(protocols[i].protocolId).Some? {
        assert ProtocolNumber(protocols[i].protocolId).value <= MaxNumbered(protocols);
      }
    }
  }

  /** When every id has a number the two maxima agree. */
  lemma {:induction false} MaximaAgreeWhenAllNumbered(protocols: seq<Protocol>)
    requires AllNumbered(protocols)
    ensures MaxProtocolNumber(protocols) == Some(MaxNumbered(protocols))
  {
    if protocols != [] {
      var init := protocols[..|protocols| - 1];
      assert forall i :: 0 <= i < |init| ==> init[i] == protocols[i];
      MaximaAgreeWhenAllNumbered(init);
      assert MaxProtocolNumber(init) == Some(MaxNumbered(init));
      assert ProtocolNumber(protocols[|protocols| - 1].protocolId).Some?;
    }
  }

  /** When every id has a number the corrected id is the one generated as written. */
  lemma CorrectedAgreesWhenAllNumbered(protocols: seq<Protocol>)
    requires AllNumbered(protocols)
    ensures CorrectedGenerateProtocolId(protocols) == GenerateProtocolId(protocols)
  {
    MaximaAgreeWhenAllNumbered(protocols);
    assert GenerateProtocolId(protocols) == ProtocolIdFor(MaxNumbered(protocols) + 1);
  }

  // ---------------------------------------------------------------------
  // Status and history
  // ---------------------------------------------------------------------

  /** The status toggle: ACTIVE becomes INACTIVE, any other status ACTIVE. */
  function ToggledStatus(status: string): (t: string)
    ensures t == "INACTIVE" <==> status == "ACTIVE"
    ensures t == "ACTIVE" || t == "INACTIVE"
  {
    if status == "ACTIVE" then "INACTIVE" else "ACTIVE"
  }

  /** Toggling twice restores ACTIVE and INACTIVE; any other status ends up INACTIVE. */
  lemma ToggleTwice(status: string)
    ensures status == "ACTIVE" || status == "INACTIVE" ==> ToggledStatus(ToggledStatus(status)) == status
    ensures status != "ACTIVE" && status != "INACTIVE" ==> ToggledStatus(ToggledStatus(status)) == "INACTIVE"
  {
  }

  /** The first protocol with the id, as Array.prototype.find and findIndex see it. */
  function FindIndex(protocols: seq<Protocol>, protocolId: string): (i: Option<nat>)
    ensures i.Some? ==> i.value < |protocols| && protocols[i.value].protocolId == protocolId
    ensures i.Some? ==> forall j :: 0 <= j < i.value ==> protocols[j].protocolId != protocolId
    ensures i.None? ==> forall j :: 0 <= j < |protocols| ==> protocols[j].protocolId != protocolId
  {
    if protocols == [] then None
    else if protocols[0].protocolId == protocolId then Some(0)
    else
      match FindIndex(protocols[1..], protocolId)
      case None => None
      case Some(k) => Some(k + 1)
  }

  datatype Action = Create | Update | Delete | StatusChange

  datatype LogEntry = LogEntry(timestamp: int, action: Action, protocolId: string)

  /** The number of history entries kept. */
  const HistoryLimit: nat := 100

  /** logProtocolAction: the entry goes in front (unshift) and everything from the 100th on is cut (splice(100)). */
  function Logged(history: seq<LogEntry>, entry: LogEntry): (h: seq<LogEntry>)
    ensures |h| == if |history| < HistoryLimit then |history| + 1 else HistoryLimit
    ensures h[0] == entry
    ensures h[1..] == history[..|h| - 1]
  {
    var all := [entry] + history;
    if |all| <= HistoryLimit then all else all[..HistoryLimit]
  }

  /** Two entries logged one after the other stand newest first, and the history never outgrows its cap. */
  lemma LoggedNewestFirst(history: seq<LogEntry>, first: LogEntry, second: LogEntry)
    ensures Logged(Logged(history, first), second)[..2] == [second, first]
    ensures |Logged(Logged(history, first), second)| <= HistoryLimit || |Logged(Logged(history, first), second)| == |history| + 2
  {
    var h := Logged(Logged(history, first), second);
    assert h[1] == h[1..][0];
  }

  /** The error of an operation on a protocol id the manager does not hold. */
  datatype ManagerError = UnknownProtocol(protocolId: string)

  /** The fields of a new protocol as the form supplies them. */
  datatype ProtocolData = ProtocolData(
    serviceCode: string,
    applicableDepartments: seq<string>,
    totalCommissionRate: real,
    recommended: bool,
    status: string,
    effectiveDate: Option<int>,
    expiryDate: Option<int>)

  /** The nine protocols initDefaultProtocols installs, PROTO001 to PROTO009, valid through 2025. */
  function DefaultProtocols(now: int): (ps: seq<Protocol>)
    ensures |ps| == 9
  {
    var from, until := Some(1735689600000), Some(1767139200000);
    var ocean, all := ["海运操作"], ["海运操作", "空运操作", "西区操作"];
    [Protocol("PROTO001", "MBL_PROCESSING", ocean, 20.0, true, "ACTIVE", from, until, now),
     Protocol("PROTO002", "HBL_PROCESSING", ocean, 16.0, true, "ACTIVE", from, until, now),
     Protocol("PROTO003", "BOOKING", ocean, 13.0, true, "ACTIVE", from, until, now),
     Protocol("PROTO004", "CONTAINER_LOADING", ocean, 10.0, true, "ACTIVE", from, until, now),
     Protocol("PROTO005", "AWB_PROCESSING", ["空运操作"], 25.0, true, "ACTIVE", from, until, now),
     Protocol("PROTO006", "CUSTOMS_CLEARANCE", all, 18.0, true, "ACTIVE", from, until, now),
     Protocol("PROTO007", "TRANSPORTATION", all, 13.0, true, "ACTIVE", from, until, now),
     Protocol("PROTO008", "CARGO_LOADING", all, 10.0, false, "ACTIVE", from, until, now),
     Protocol("PROTO009", "ALL", all, 15.0, false, "ACTIVE", from, until, now)]
  }

  /** The protocols of the manager and the history it logs its actions in. */
  class ProtocolManager {
    var protocols: seq<Protocol>
    var history: seq<LogEntry>

    ghost predicate Valid()
      reads this
    {
      |history| <= HistoryLimit
    }

    /** init: the protocols loaded, or the defaults when none were. */
    constructor(loaded: seq<Protocol>, now: int)
      ensures Valid()
      ensures protocols == if loaded == [] then DefaultProtocols(now) else loaded
      ensures history == []
    {
      protocols := if loaded == [] then DefaultProtocols(now) else loaded;
      history := [];
    }

    /** logProtocolAction. */
    method LogProtocolAction(action: Action, protocolId: string, now: int)
      requires Valid()
      modifies this
      ensures Valid()
      ensures protocols == old(protocols)
      ensures history == Logged(old(history), LogEntry(now, action, protocolId))
    {
      history := [LogEntry(now, action, protocolId)] + history;
      if |history| > HistoryLimit {
        history := history[..HistoryLimit];
      }
    }

    /**
     * toggleProtocolStatus: the first protocol with the id has its status
     * toggled and its update time set, and the change is logged; an unknown
     * id is an error and changes nothing.
     */
    method ToggleProtocolStatus(protocolId: string, now: int) returns (r: Result<Protocol, ManagerError>)
      requires Valid()
      modifies this
      ensures Valid()
      ensures FindIndex(old(protocols), protocolId).None? ==>
        r == Err(UnknownProtocol(protocolId)) && protocols == old(protocols) && history == old(history)
      ensures FindIndex(old(protocols), protocolId).Some? ==>
        var i := FindIndex(old(protocols), protocolId).value;
        var toggled := old(protocols)[i].(status := ToggledStatus(old(protocols)[i].status), updatedAt := now);
        r == Ok(toggled) && protocols == old(protocols)[i := toggled] &&
        history == Logged(old(history), LogEntry(now, StatusChange, protocolId))
    {
      var found := FindIndex(protocols, protocolId);
      if found.None? {
        return Err(UnknownProtocol(protocolId));
      }
      var i := found.value;
      var toggled := protocols[i].(status := ToggledStatus(protocols[i].status), updatedAt := now);
      protocols := protocols[i := toggled];
      LogProtocolAction(StatusChange, protocolId, now);
      r := Ok(toggled);
    }

    /**
     * addProtocol, created locally: the protocol gets a new id and goes at the
     * end of the list, and the creation is logged.
     */
    method AddProtocol(data: ProtocolData, now: int) returns (p: Protocol)
      requires Valid()
      modifies this
      ensures Valid()
      ensures forall i :: 0 <= i < |old(protocols)| ==> old(protocols)[i].protocolId != p.protocolId
      ensures p == Protocol(CorrectedGenerateProtocolId(old(protocols)), data.serviceCode, data.applicableDepartments,
                            data.totalCommissionRate, data.recommended, data.status, data.effectiveDate, data.expiryDate, now)
      ensures protocols == old(protocols) + [p]
      ensures history == Logged(old(history), LogEntry(now, Create, p.protocolId))
    {
      CorrectedIdIsNew(protocols);
      p := Protocol(CorrectedGenerateProtocolId(protocols), data.serviceCode, data.applicableDepartments,
                    data.totalCommissionRate, data.recommended, data.status, data.effectiveDate, data.expiryDate, now);
      protocols := protocols + [p];
      LogProtocolAction(Create, p.protocolId, now);
    }

    /**
     * deleteProtocol, done locally: the first protocol with the id is cut out
     * of the list and the deletion is logged; an unknown id is an error and
     * changes nothing.
     */
    method DeleteProtocol(protocolId: string, now: int) returns (r: Result<Protocol, ManagerError>)
      requires Valid()
      modifies this
      ensures Valid()
      ensures FindIndex(old(protocols), protocolId).None? ==>
        r == Err(UnknownProtocol(protocolId)) && protocols == old(protocols) && history == old(history)
      ensures FindIndex(old(protocols), protocolId).Some? ==>
        var i := FindIndex(old(protocols), protocolId).value;
        r == Ok(old(protocols)[i]) && protocols == old(protocols)[..i] + old(protocols)[i + 1..] &&
        history == Logged(old(history), LogEntry(now, Delete, protocolId))
    {
      var found := FindIndex(protocols, protocolId);
      if found.None? {
        return Err(UnknownProtocol(protocolId));
      }
      var i := found.value;
      var deleted := protocols[i];
      protocols := protocols[..i] + protocols[i + 1..];
      LogProtocolAction(Delete, protocolId, now);
      r := Ok(deleted);
    }
  }

  /** A protocol toggled twice has its status back, and the list is otherwise as it was. */
  method ToggleTwiceRestores(m: ProtocolManager, protocolId: string, now: int)
    requires m.Valid()
    requires FindIndex(m.protocols, protocolId).Some?
    requires m.protocols[FindIndex(m.protocols, protocolId).value].status in {"ACTIVE", "INACTIVE"}
    modifies m
    ensures m.Valid()
    ensures |m.protocols| == |old(m.protocols)|
    ensures forall j :: 0 <= j < |m.protocols| ==> m.protocols[j].status == old(m.protocols)[j].status
  {
    var i := FindIndex(m.protocols, protocolId).value;
    var before := m.protocols;
    var r1 := m.ToggleProtocolStatus(protocolId, now);
    assert FindIndex(m.protocols, protocolId) == Some(i) by {
      assert forall j :: 0 <= j < |m.protocols| ==> m.protocols[j].protocolId == before[j].protocolId;
    }
    var r2 := m.ToggleProtocolStatus(protocolId, now);
    ToggleTwice(before[i].status);
  }
}
