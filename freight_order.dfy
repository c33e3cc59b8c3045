/**
 * The order list page (freight-order.js): which orders a user may see, found
 * from the operator directory and its reporting lines, the role filter of
 * the order list, and the business-friendly order numbers shown for it. The
 * operator directory, the dispatch history kept by the browser and today's
 * date are parameters; a missing JavaScript value (undefined or null) is
 * None.
 */
module FreightOrder {
  import opened Wrappers
  import opened Strings
  import opened Sorting

  datatype OperatorInfo = OperatorInfo(
    opid: string,
    level: string,
    manageLevel: Option<string>,
    subordinates: Option<seq<string>>)

  /** getOperatorInfo: the first directory entry with the id. */
  function FindOperator(directory: seq<OperatorInfo>, opid: string): (u: Option<OperatorInfo>)
    ensures u.Some? ==> u.value in directory && u.value.opid == opid
    ensures u.None? ==> forall j :: 0 <= j < |directory| ==> directory[j].opid != opid
  {
    if directory == [] then None
    else if directory[0].opid == opid then Some(directory[0])
    else FindOperator(directory[1..], opid)
  }

  // ---------------------------------------------------------------------
  // Visible order ids
  // ---------------------------------------------------------------------

  /** Set.prototype.add on a set kept in insertion order. */
  function Add(ids: seq<string>, x: string): (r: seq<string>)
    ensures forall y :: y in r <==> y in ids || y == x
    ensures x in ids ==> r == ids
    ensures x !in ids ==> r == ids + [x]
  {
    if x in ids then ids else ids + [x]
  }

  /** Adding each of xs in turn. */
  function AddAll(ids: seq<string>, xs: seq<string>): (r: seq<string>)
    decreases |xs|
  {
    if xs == [] then ids else Add(AddAll(ids, xs[..|xs| - 1]), xs[|xs| - 1])
  }

  predicate Distinct(ids: seq<string>) {
    forall j, k :: 0 <= j < k < |ids| ==> ids[j] != ids[k]
  }

  /** The ids added are exactly the old ones and xs, each once, the old ones first in their order. */
  lemma {:induction false} AddAllMembers(ids: seq<string>, xs: seq<string>)
    ensures forall y :: y in AddAll(ids, xs) <==> y in ids || y in xs
    ensures Distinct(ids) ==> Distinct(AddAll(ids, xs))
    ensures |AddAll(ids, xs)| >= |ids| && AddAll(ids, xs)[..|ids|] == ids
    decreases |xs|
  {
    if xs != [] {
      var init := xs[..|xs| - 1];
      AddAllMembers(ids, init);
      forall y ensures y in xs <==> y in init || y == xs[|xs| - 1] {
        assert xs == init + [xs[|xs| - 1]];
      }
      var before := AddAll(ids, init);
      assert before[..|ids|] == ids;
      if xs[|xs| - 1] !in before {
        assert (before + [xs[|xs| - 1]])[..|ids|] == before[..|ids|];
      }
    }
  }

  /** The subordinates the directory lists for an id; none for an unknown id. */
  function SubordinatesOf(directory: seq<OperatorInfo>, opid: string): (subs: seq<string>)
    ensures FindOperator(directory, opid).None? ==> subs == []
  {
    match FindOperator(directory, opid)
    case None => []
    case Some(u) => if u.subordinates.Some? then u.subordinates.value else []
  }

  /** The loop over the subordinates: each one, then each of that one's own subordinates. */
  function AddTeams(directory: seq<OperatorInfo>, ids: seq<string>, subs: seq<string>): (r: seq<string>)
    decreases |subs|
  {
    if subs == [] then ids
    else
      var sub := subs[|subs| - 1];
      AddAll(Add(AddTeams(directory, ids, subs[..|subs| - 1]), sub), SubordinatesOf(directory, sub))
  }

  /** Someone is in a team when they are one of the subordinates or a subordinate of one of them. */
  predicate InTeams(directory: seq<OperatorInfo>, subs: seq<string>, x: string) {
    x in subs || exists k :: 0 <= k < |subs| && x in SubordinatesOf(directory, subs[k])
  }

  /** The team loop keeps what was there first, in order. */
  lemma {:induction false} AddTeamsKeepsPrefix(directory: seq<OperatorInfo>, ids: seq<string>, subs: seq<string>)
    ensures |AddTeams(directory, ids, subs)| >= |ids| && AddTeams(directory, ids, subs)[..|ids|] == ids
    decreases |subs|
  {
    if subs != [] {
      var sub := subs[|subs| - 1];
      AddTeamsKeepsPrefix(directory, ids, subs[..|subs| - 1]);
      var before := AddTeams(directory, ids, subs[..|subs| - 1]);
      var added := Add(before, sub);
      assert added[..|before|] == before;
      AddAllMembers(added, SubordinatesOf(directory, sub));
    }
  }

  /** The team loop adds no id twice. */
  lemma {:induction false} AddTeamsDistinct(directory: seq<OperatorInfo>, ids: seq<string>, subs: seq<string>)
    requires Distinct(ids)
    ensures Distinct(AddTeams(directory, ids, subs))
    decreases |subs|
  {
    if subs != [] {
      var sub := subs[|subs| - 1];
      AddTeamsDistinct(directory, ids, subs[..|subs| - 1]);
      var added := Add(AddTeams(directory, ids, subs[..|subs| - 1]), sub);
      assert Distinct(added);
      AddAllMembers(added, SubordinatesOf(directory, sub));
    }
  }

  /** One more subordinate widens the team by that one and their own subordinates. */
  lemma InTeamsSnoc(directory: seq<OperatorInfo>, subs: seq<string>, y: string)
    requires subs != []
    ensures InTeams(directory, subs, y) <==>
      (InTeams(directory, subs[..|subs| - 1], y) || y == subs[|subs| - 1] || y in SubordinatesOf(directory, subs[|subs| - 1]))
  {
    var init := subs[..|subs| - 1];
    assert subs == init + [subs[|subs| - 1]];
    if exists k :: 0 <= k < |subs| && y in SubordinatesOf(directory, subs[k]) {
      var k :| 0 <= k < |subs| && y in SubordinatesOf(directory, subs[k]);
      if k < |init| {
        assert subs[k] == init[k];
      }
    }
    if exists k :: 0 <= k < |init| && y in SubordinatesOf(directory, init[k]) {
      var k :| 0 <= k < |init| && y in SubordinatesOf(directory, init[k]);
      assert init[k] == subs[k];
    }
  }

  /** The team loop adds exactly the subordinates and theirs. */
  lemma {:induction false} AddTeamsMembers(directory: seq<OperatorInfo>, ids: seq<string>, subs: seq<string>)
    ensures forall y :: y in AddTeams(directory, ids, subs) <==> y in ids || InTeams(directory, subs, y)
    decreases |subs|
  {
    if subs != [] {
      var sub := subs[|subs| - 1];
      AddTeamsMembers(directory, ids, subs[..|subs| - 1]);
      AddAllMembers(Add(AddTeams(directory, ids, subs[..|subs| - 1]), sub), SubordinatesOf(directory, sub));
      forall y {
        InTeamsSnoc(directory, subs, y);
      }
    }
  }

  /** The ids a customer service user always sees besides their own. */
  const CustomerServiceIds: seq<string> := ["CS001", "CS002", "CS003", "CS004"]

  /**
   * getVisibleOrderIds: nothing for a user the directory does not know; ['*']
   * (every order) for a general manager over ALL, and for a user with '*'
   * among the subordinates; otherwise the user, the customer service ids for
   * a CS user, then each subordinate followed by that one's subordinates.
   */
  function VisibleOrderIds(directory: seq<OperatorInfo>, opid: string): (ids: seq<string>)
  {
    match FindOperator(directory, opid)
    case None => []
    case Some(u) =>
      if SeesEverything(u) then ["*"]
      else
        var own := OwnIds(opid, u.level);
        if u.subordinates.Some? && |u.subordinates.value| > 0 then
          AddTeams(directory, own, u.subordinates.value)
        else own
  }

  /** A general manager over ALL, or a user with '*' among the subordinates. */
  predicate SeesEverything(u: OperatorInfo) {
    (u.level == "GM" && u.manageLevel == Some("ALL")) || (u.subordinates.Some? && "*" in u.subordinates.value)
  }

  /** The user's own id, followed for a CS user by the customer service ids. */
  function OwnIds(opid: string, level: string): (own: seq<string>)
    ensures |own| > 0 && own[0] == opid && Distinct(own)
    ensures forall x :: x in own <==> x == opid || (level == "CS" && x in CustomerServiceIds)
  {
    AddAllMembers([opid], CustomerServiceIds);
    if level == "CS" then AddAll([opid], CustomerServiceIds) else [opid]
  }

  /** No known user sees nothing and an unknown one sees nothing; a user who sees everything gets ['*']. */
  lemma VisibleOrderIdsEverything(directory: seq<OperatorInfo>, opid: string)
    ensures FindOperator(directory, opid).None? <==> VisibleOrderIds(directory, opid) == []
    ensures var u := FindOperator(directory, opid);
      u.Some? && SeesEverything(u.value) ==> VisibleOrderIds(directory, opid) == ["*"]
  {
    match FindOperator(directory, opid)
    case None =>
    case Some(u) =>
      if !SeesEverything(u) && u.subordinates.Some? && |u.subordinates.value| > 0 {
        AddTeamsKeepsPrefix(directory, OwnIds(opid, u.level), u.subordinates.value);
      }
  }

  /**
   * The visible ids of a known user who does not see everything: the user
   * first, then exactly the customer service ids for a CS user and the two
   * levels of subordinates, each once.
   */
  lemma VisibleOrderIdsListed(directory: seq<OperatorInfo>, opid: string)
    requires FindOperator(directory, opid).Some? && !SeesEverything(FindOperator(directory, opid).value)
    ensures var u := FindOperator(directory, opid).value;
      var ids := VisibleOrderIds(directory, opid);
      |ids| > 0 && ids[0] == opid && Distinct(ids) &&
      forall x :: x in ids <==>
        x == opid || (u.level == "CS" && x in CustomerServiceIds) ||
        (u.subordinates.Some? && InTeams(directory, u.subordinates.value, x))
  {
    var u := FindOperator(directory, opid).value;
    var own := OwnIds(opid, u.level);
    if u.subordinates.Some? && |u.subordinates.value| > 0 {
      AddTeamsMembers(directory, own, u.subordinates.value);
      AddTeamsDistinct(directory, own, u.subordinates.value);
      AddTeamsKeepsPrefix(directory, own, u.subordinates.value);
      var ids := AddTeams(directory, own, u.subordinates.value);
      assert ids[0] == ids[..|own|][0];
    } else if u.subordinates.Some? {
      assert forall x :: !InTeams(directory, u.subordinates.value, x);
    }
  }

  /** Set.prototype.add for each of xs in turn, as the forEach loops do it. */
  method AddEach(ids: seq<string>, xs: seq<string>) returns (r: seq<string>)
    ensures r == AddAll(ids, xs)
  {
    r := ids;
    var j := 0;
    while j < |xs|
      invariant 0 <= j <= |xs|
      invariant r == AddAll(ids, xs[..j])
    {
      assert xs[..j + 1][..j] == xs[..j];
      if xs[j] !in r {
        r := r + [xs[j]];
      }
      j := j + 1;
    }
    assert xs[..|xs|] == xs;
  }

  /** The loop over the subordinates: each one, then that one's own subordinates. */
  method AddEachTeam(directory: seq<OperatorInfo>, own: seq<string>, subs: seq<string>) returns (ids: seq<string>)
    ensures ids == AddTeams(directory, own, subs)
  {
    ids := own;
    var k := 0;
    while k < |subs|
      invariant 0 <= k <= |subs|
      invariant ids == AddTeams(directory, own, subs[..k])
    {
      assert subs[..k + 1][..k] == subs[..k];
      ids := AddEach(Add(ids, subs[k]), SubordinatesOf(directory, subs[k]));
      k := k + 1;
    }
    assert subs[..|subs|] == subs;
  }

  /** getVisibleOrderIds. */
  method GetVisibleOrderIds(directory: seq<OperatorInfo>, opid: string) returns (ids: seq<string>)
    ensures ids == VisibleOrderIds(directory, opid)
  {
    var user := FindOperator(directory, opid);
    if user.None? {
      return [];
    }
    var u := user.value;
    if u.level == "GM" && u.manageLevel == Some("ALL") {
      return ["*"];
    }
    ids := [opid];
    if u.level == "CS" {
      ids := AddEach(ids, CustomerServiceIds);
    }
    if u.subordinates.Some? && |u.subordinates.value| > 0 {
      if "*" in u.subordinates.value {
        return ["*"];
      }
      ids := AddEachTeam(directory, ids, u.subordinates.value);
    }
  }

  datatype Order = Order(
    orderId: string,
    staffId: Option<string>,
    createdBy: Option<string>,
    salesStaffId: Option<string>,
    salesDepartmentId: Option<string>,
    orderStatus: string)

  /** A JavaScript string is truthy unless missing or empty. */
  predicate Truthy(s: Option<string>) {
    s.Some? && s.value != ""
  }

  /** order.staffId || order.createdBy || order.salesStaffId. */
  function OrderOwner(order: Order): (owner: Option<string>)
    ensures Truthy(order.staffId) ==> owner == order.staffId
    ensures !Truthy(order.staffId) && Truthy(order.createdBy) ==> owner == order.createdBy
    ensures !Truthy(order.staffId) && !Truthy(order.createdBy) ==> owner == order.salesStaffId
  {
    if Truthy(order.staffId) then order.staffId
    else if Truthy(order.createdBy) then order.createdBy
    else order.salesStaffId
  }

  /** canViewOrder: every order with '*', else the orders whose owner is a visible id. */
  predicate CanViewOrder(directory: seq<OperatorInfo>, opid: string, order: Order) {
    var ids := VisibleOrderIds(directory, opid);
    "*" in ids || (OrderOwner(order).Some? && OrderOwner(order).value in ids)
  }

  /** A user sees the orders they own, and an unknown user sees none. */
  lemma CanViewOwnOrders(directory: seq<OperatorInfo>, opid: string, order: Order)
    ensures FindOperator(directory, opid).Some? && OrderOwner(order) == Some(opid) ==> CanViewOrder(directory, opid, order)
    ensures FindOperator(directory, opid).None? ==> !CanViewOrder(directory, opid, order)
  {
    VisibleOrderIdsEverything(directory, opid);
    if FindOperator(directory, opid).Some? && !SeesEverything(FindOperator(directory, opid).value) {
      VisibleOrderIdsListed(directory, opid);
    }
  }

  /**
   * A subordinate of a subordinate whose own list holds '*' lets the user see
   * every order, although the visible ids are not ['*'].
   */
  lemma SecondLevelStarSeesAll(directory: seq<OperatorInfo>, opid: string, order: Order)
    requires FindOperator(directory, opid).Some?
    requires var u := FindOperator(directory, opid).value;
      u.subordinates.Some? &&
      exists k :: 0 <= k < |u.subordinates.value| && "*" in SubordinatesOf(directory, u.subordinates.value[k])
    ensures CanViewOrder(directory, opid, order)
  {
    VisibleOrderIdsEverything(directory, opid);
    var u := FindOperator(directory, opid).value;
    if !SeesEverything(u) {
      VisibleOrderIdsListed(directory, opid);
      assert InTeams(directory, u.subordinates.value, "*");
    }
  }

  // ---------------------------------------------------------------------
  // The role filter of the order list
  // ---------------------------------------------------------------------

  datatype User = User(id: Option<string>, role: string, level: string, departmentId: Option<string>)

  /** A dispatch as the browser history keeps it. */
  datatype DispatchRecord = DispatchRecord(orderId: string, assignedOperatorId: Option<string>, status: string)

  /** isOrderAssignedToOperator: some dispatch of the order to the operator is ASSIGNED. */
  predicate IsOrderAssignedToOperator(history: seq<DispatchRecord>, order: Order, operatorId: Option<string>) {
    exists k :: 0 <= k < |history| &&
      history[k].orderId == order.orderId && history[k].assignedOperatorId == operatorId && history[k].status == "ASSIGNED"
  }

  predicate IsCustomerServiceOrder(order: Order, user: User) {
    order.createdBy == user.id || order.salesStaffId == user.id ||
    order.orderStatus in {"PENDING", "CONFIRMED", "PROCESSING", "SHIPPED"}
  }

  predicate IsSalesOrder(order: Order, user: User) {
    order.salesStaffId == user.id || order.salesDepartmentId == user.departmentId
  }

  datatype Role = Management | CustomerService | Operations | Sales | NoRole

  /** The branch filterOrdersByRole takes: by level for GM, else by role name or level, in this order. */
  function RoleOf(user: User): (r: Role)
    ensures r == Management <==> user.level == "GM"
    ensures r == NoRole <==>
      user.level !in {"GM", "CS", "OP", "SA"} &&
      !Contains(user.role, "客服") && !Contains(user.role, "操作") && !Contains(user.role, "销售")
  {
    if user.level == "GM" then Management
    else if Contains(user.role, "客服") || user.level == "CS" then CustomerService
    else if Contains(user.role, "操作") || user.level == "OP" then Operations
    else if Contains(user.role, "销售") || user.level == "SA" then Sales
    else NoRole
  }

  function ServiceFilter(user: User): (f: Order -> bool)
    ensures forall o :: f(o) <==> IsCustomerServiceOrder(o, user)
  {
    (o: Order) => IsCustomerServiceOrder(o, user)
  }

  function OperatorFilter(history: seq<DispatchRecord>, user: User): (f: Order -> bool)
    ensures forall o :: f(o) <==> IsOrderAssignedToOperator(history, o, user.id)
  {
    (o: Order) => IsOrderAssignedToOperator(history, o, user.id)
  }

  function SalesFilter(user: User): (f: Order -> bool)
    ensures forall o :: f(o) <==> IsSalesOrder(o, user)
  {
    (o: Order) => IsSalesOrder(o, user)
  }

  /** filterOrdersByRole; a missing order list or user gives no orders. */
  function FilterOrdersByRole(allOrders: Option<seq<Order>>, user: Option<User>, history: seq<DispatchRecord>): (r: seq<Order>)
    ensures allOrders.None? || user.None? ==> r == []
    ensures allOrders.Some? && user.Some? && RoleOf(user.value) == Management ==> r == allOrders.value
    ensures user.Some? && RoleOf(user.value) == NoRole ==> r == []
  {
    if allOrders.None? || user.None? then []
    else
      var orders, u := allOrders.value, user.value;
      match RoleOf(u)
      case Management => orders
      case CustomerService => Filter(orders, ServiceFilter(u))
      case Operations => Filter(orders, OperatorFilter(history, u))
      case Sales => Filter(orders, SalesFilter(u))
      case NoRole => []
  }

  /** For the filtering roles the result keeps exactly the orders of the role's rule. */
  lemma FilterOrdersByRoleMembers(allOrders: seq<Order>, user: User, history: seq<DispatchRecord>)
    ensures var r := FilterOrdersByRole(Some(allOrders), Some(user), history);
      RoleOf(user) == CustomerService ==> forall o :: o in r <==> o in allOrders && IsCustomerServiceOrder(o, user)
    ensures var r := FilterOrdersByRole(Some(allOrders), Some(user), history);
      RoleOf(user) == Operations ==> forall o :: o in r <==> o in allOrders && IsOrderAssignedToOperator(history, o, user.id)
    ensures var r := FilterOrdersByRole(Some(allOrders), Some(user), history);
      RoleOf(user) == Sales ==> forall o :: o in r <==> o in allOrders && IsSalesOrder(o, user)
  {
  }

  /** The role name comes before the level: a GM role name does not matter, but a "客服" role beats an OP level. */
  lemma RoleNameBeforeLevel(user: User)
    requires user.level != "GM" && Contains(user.role, "客服")
    ensures RoleOf(user) == CustomerService
  {
  }

  // ---------------------------------------------------------------------
  // Business order numbers
  // ---------------------------------------------------------------------

  const BusinessPrefixes: seq<string> := ["HW-EXPORT", "MIDEA-SHIP", "SH-AUTO", "BYD-OCEAN",
                                          "TENCENT-AIR", "BAIDU-RAIL", "ALIBABA-MULTI", "XIAOMI-EXPRESS"]

  /** The date part: year, then month and day padded to two digits. */
  function DateString(year: nat, month: nat, day: nat): string {
    NatToString(year) + PadStart(NatToString(month), 2, '0') + PadStart(NatToString(day), 2, '0')
  }

  /** The three-digit sequence: (index + 1) mod 1000 padded to three digits. */
  function SequenceString(index: nat): (s: string)
    ensures |s| == 3 && AllDigits(s) && DigitsValue(s) == (index + 1) % 1000
  {
    var n := (index + 1) % 1000;
    PaddedValue(n, 3);
    NatToStringShort(n);
    PadStart(NatToString(n), 3, '0')
  }

  /** The numeral of a number below 1000 has at most three digits. */
  lemma NatToStringShort(n: nat)
    requires n < 1000
    ensures |NatToString(n)| <= 3
  {
    if n >= 10 {
      var m := n / 10;
      if m >= 10 {
        assert |NatToString(m / 10)| == 1;
        assert |NatToString(m)| == 2;
      } else {
        assert |NatToString(m)| == 1;
      }
    }
  }

  /** generateBusinessOrderNumber for the order at the index, on the given date. */
  function GenerateBusinessOrderNumber(index: nat, date: string): (number: string)
  {
    BusinessPrefixes[index % 8] + "-" + date + "-" + SequenceString(index)
  }

  /**
   * Two indexes give the same number on a date exactly when they pick the same
   * prefix (equal modulo 8) and the same sequence ((index + 1) mod 1000).
   */
  lemma BusinessOrderNumberIdentity(i: nat, j: nat, date: string)
    ensures GenerateBusinessOrderNumber(i, date) == GenerateBusinessOrderNumber(j, date) <==>
      i % 8 == j % 8 && (i + 1) % 1000 == (j + 1) % 1000
  {
    if GenerateBusinessOrderNumber(i, date) == GenerateBusinessOrderNumber(j, date) {
      SameNumberSameParts(i, j, date);
    }
  }

  lemma SameNumberSameParts(i: nat, j: nat, date: string)
    requires GenerateBusinessOrderNumber(i, date) == GenerateBusinessOrderNumber(j, date)
    ensures i % 8 == j % 8 && (i + 1) % 1000 == (j + 1) % 1000
  {
    var pa, pb := BusinessPrefixes[i % 8], BusinessPrefixes[j % 8];
    var sa, sb := SequenceString(i), SequenceString(j);
    NumberParts(pa, date, sa);
    NumberParts(pb, date, sb);
    PrefixesDistinct(i % 8, j % 8);
  }

  /** A number splits back into its prefix and its three-digit sequence. */
  lemma NumberParts(prefix: string, date: string, sequence: string)
    requires |sequence| == 3
    ensures var number := prefix + "-" + date + "-" + sequence;
      |number| == |prefix| + |date| + 5 && number[..|prefix|] == prefix && number[|number| - 3..] == sequence
  {
    var number := prefix + "-" + date + "-" + sequence;
    assert number == prefix + ("-" + date + "-" + sequence);
  }

  lemma PrefixesDistinct(k: nat, l: nat)
    requires k < 8 && l < 8 && BusinessPrefixes[k] == BusinessPrefixes[l]
    ensures k == l
  {
  }

  /** The prefix comes round again after eight orders, and the sequence after a thousand. */
  lemma BusinessOrderNumberCycles(index: nat, date: string)
    ensures GenerateBusinessOrderNumber(index + 8000, date) == GenerateBusinessOrderNumber(index, date)
    ensures BusinessPrefixes[(index + 8) % 8] == BusinessPrefixes[index % 8]
    ensures SequenceString(index + 1000) == SequenceString(index)
  {
    assert (index + 8) % 8 == index % 8;
    assert (index + 1000 + 1) % 1000 == (index + 1) % 1000;
    assert (index + 8000) % 8 == index % 8;
    assert (index + 8000 + 1) % 1000 == (index + 1) % 1000;
  }

  /** The thousandth order of a batch wraps round to sequence 000. */
  lemma ThousandthOrderWraps()
    ensures SequenceString(999) == "000"
  {
    assert (999 + 1) % 1000 == 0;
    assert NatToString(0) == "0";
    assert PadStart("0", 3, '0') == seq(2, _ => '0') + "0";
    assert seq(2, _ => '0') == "00";
  }
}
