/** Fee aggregation: what each worker role earned and spent per pathway (go/internal/db/fee_accounting.go).

The query joins jobs with packets, groups mined receipts per job, left-joins the two, and groups
again per (role, source, destination). A relation is a sequence of records; tables are listed by
their keys in any order. */
module Fees {
  import opened Tables
  import Sorting

  datatype Role = ExecutorRole | DvnRole

  /** The grouping key of one job's receipts. */
  datatype Slot = Slot(role: Role, src: Eid, dst: Eid, guid: Guid)

  /** The grouping key of the report. */
  datatype Line = Line(role: Role, src: Eid, dst: Eid)

  datatype JobFee = JobFee(slot: Slot, revenue: nat)
  datatype Receipt = Receipt(slot: Slot, id: nat, price: Option<nat>)
  datatype JobCost = JobCost(slot: Slot, cost: nat, unpriced: nat)
  datatype Margin = Margin(slot: Slot, revenue: nat, cost: nat, unpriced: nat)
  datatype Stat = Stat(revenue: nat, cost: nat, margin: int, losing: nat, unpriced: nat)

  function LineOf(slot: Slot): Line {
    Line(slot.role, slot.src, slot.dst)
  }

  function SlotOf(db: Db, role: Role, g: Guid): Slot
    requires g in db.packets
  {
    Slot(role, db.packets[g].key.src, db.packets[g].key.dst, g)
  }

  // ----- the common table expressions -----

  function FeeOf(fee: Option<nat>): nat {
    if fee.Some? then fee.value else 0
  }

  function ExecutorFees(db: Db, guids: seq<Guid>): seq<JobFee> {
    if guids == [] then []
    else
      var g := guids[0];
      (if g in db.jobs && g in db.packets then [JobFee(SlotOf(db, ExecutorRole, g), FeeOf(db.jobs[g].fee))] else [])
      + ExecutorFees(db, guids[1..])
  }

  function DvnFees(db: Db, guids: seq<Guid>): seq<JobFee> {
    if guids == [] then []
    else
      var g := guids[0];
      (if g in db.dvn && g in db.packets then [JobFee(SlotOf(db, DvnRole, g), FeeOf(db.dvn[g].fee))] else [])
      + DvnFees(db, guids[1..])
  }

  function RoleOf(p: Purpose): Role {
    if p.CommitVerification? || p.LzReceive? then ExecutorRole else DvnRole
  }

  /** A mined worker transaction whose packet is known. */
  predicate Counted(db: Db, id: nat) {
    && id in db.outbox && PacketPurpose(db.outbox[id].req.purpose) && db.outbox[id].cost.dst.Some?
    && db.outbox[id].req.guid.Some? && db.outbox[id].req.guid.value in db.packets
  }

  function ReceiptOf(db: Db, id: nat): Receipt
    requires Counted(db, id)
  {
    var row := db.outbox[id];
    Receipt(SlotOf(db, RoleOf(row.req.purpose), row.req.guid.value), id, row.cost.src)
  }

  function Receipts(db: Db, ids: seq<nat>): seq<Receipt> {
    if ids == [] then []
    else Receipts(db, ids[..|ids| - 1]) + (if Counted(db, ids[|ids| - 1]) then [ReceiptOf(db, ids[|ids| - 1])] else [])
  }

  function Price(r: Receipt): nat {
    if r.price.Some? then r.price.value else 0
  }

  function Missing(r: Receipt): nat {
    if r.price.None? then 1 else 0
  }

  /** GROUP BY slot, one receipt at a time. */
  function Add(groups: seq<JobCost>, r: Receipt): seq<JobCost> {
    if groups == [] then [JobCost(r.slot, Price(r), Missing(r))]
    else if groups[0].slot == r.slot then
      [groups[0].(cost := groups[0].cost + Price(r), unpriced := groups[0].unpriced + Missing(r))] + groups[1..]
    else [groups[0]] + Add(groups[1..], r)
  }

  function Group(rs: seq<Receipt>): seq<JobCost> {
    if rs == [] then [] else Add(Group(rs[..|rs| - 1]), rs[|rs| - 1])
  }

  function Matches(groups: seq<JobCost>, slot: Slot): seq<JobCost> {
    if groups == [] then []
    else (if groups[0].slot == slot then [groups[0]] else []) + Matches(groups[1..], slot)
  }

  function Pairings(fee: JobFee, costs: seq<JobCost>): seq<Margin> {
    if costs == [] then []
    else [Margin(fee.slot, fee.revenue, costs[0].cost, costs[0].unpriced)] + Pairings(fee, costs[1..])
  }

  /** LEFT JOIN on the slot: one row per matching group, or one row of zeros. */
  function Joined(fees: seq<JobFee>, groups: seq<JobCost>): seq<Margin> {
    if fees == [] then []
    else
      var costs := Matches(groups, fees[0].slot);
      (if costs == [] then [Margin(fees[0].slot, fees[0].revenue, 0, 0)] else Pairings(fees[0], costs))
      + Joined(fees[1..], groups)
  }

  /** One line of the report. */
  function Total(ms: seq<Margin>, line: Line): Stat {
    if ms == [] then Stat(0, 0, 0, 0, 0)
    else
      var rest := Total(ms[1..], line);
      if LineOf(ms[0].slot) != line then rest
      else
        Stat(rest.revenue + ms[0].revenue, rest.cost + ms[0].cost, rest.margin + (ms[0].revenue - ms[0].cost),
             rest.losing + (if ms[0].cost > ms[0].revenue then 1 else 0), rest.unpriced + ms[0].unpriced)
  }

  function WorkerFeeStat(fees: seq<JobFee>, rs: seq<Receipt>, line: Line): Stat {
    Total(Joined(fees, Group(rs)), line)
  }

  // ----- an independent account of one job -----

  function CostIn(rs: seq<Receipt>, slot: Slot): nat {
    if rs == [] then 0
    else CostIn(rs[..|rs| - 1], slot) + (if rs[|rs| - 1].slot == slot then Price(rs[|rs| - 1]) else 0)
  }

  function UnpricedIn(rs: seq<Receipt>, slot: Slot): nat {
    if rs == [] then 0
    else UnpricedIn(rs[..|rs| - 1], slot) + (if rs[|rs| - 1].slot == slot then Missing(rs[|rs| - 1]) else 0)
  }

  predicate Mentions(rs: seq<Receipt>, slot: Slot) {
    exists i :: 0 <= i < |rs| && rs[i].slot == slot
  }

  lemma {:induction false} AddMatches(groups: seq<JobCost>, r: Receipt, slot: Slot)
    requires |Matches(groups, r.slot)| <= 1
    ensures Matches(Add(groups, r), slot) ==
      if slot != r.slot then Matches(groups, slot)
      else if Matches(groups, slot) == [] then [JobCost(slot, Price(r), Missing(r))]
      else [JobCost(slot, Matches(groups, slot)[0].cost + Price(r), Matches(groups, slot)[0].unpriced + Missing(r))]
  {
    if groups != [] {
      if groups[0].slot == r.slot {
        assert Add(groups, r)[1..] == groups[1..];
      } else {
        AddMatches(groups[1..], r, slot);
        assert Add(groups, r)[1..] == Add(groups[1..], r);
      }
    }
  }

  lemma MentionsLast(rs: seq<Receipt>, slot: Slot)
    requires rs != []
    ensures Mentions(rs, slot) <==> Mentions(rs[..|rs| - 1], slot) || rs[|rs| - 1].slot == slot
  {
    var init := rs[..|rs| - 1];
    if Mentions(init, slot) {
      var i :| 0 <= i < |init| && init[i].slot == slot;
      assert rs[i].slot == slot;
    }
  }

  /** The receipts of one job as a record, if there are any. */
  function Summary(rs: seq<Receipt>, slot: Slot): seq<JobCost> {
    if Mentions(rs, slot) then [JobCost(slot, CostIn(rs, slot), UnpricedIn(rs, slot))] else []
  }

  lemma SummaryGrows(rs: seq<Receipt>, slot: Slot)
    requires rs != []
    requires !Mentions(rs[..|rs| - 1], slot) ==> CostIn(rs[..|rs| - 1], slot) == 0 && UnpricedIn(rs[..|rs| - 1], slot) == 0
    ensures var (init, last) := (rs[..|rs| - 1], rs[|rs| - 1]);
      Summary(rs, slot) ==
      if slot != last.slot then Summary(init, slot)
      else if Summary(init, slot) == [] then [JobCost(slot, Price(last), Missing(last))]
      else [JobCost(slot, Summary(init, slot)[0].cost + Price(last), Summary(init, slot)[0].unpriced + Missing(last))]
    ensures !Mentions(rs, slot) ==> CostIn(rs, slot) == 0 && UnpricedIn(rs, slot) == 0
  {
    MentionsLast(rs, slot);
  }

  /** Grouping yields exactly one record per job that has receipts, holding their sum and count. */
  lemma {:induction false} GroupMatches(rs: seq<Receipt>, slot: Slot)
    ensures Matches(Group(rs), slot) == Summary(rs, slot)
    ensures !Mentions(rs, slot) ==> CostIn(rs, slot) == 0 && UnpricedIn(rs, slot) == 0
  {
    if rs != [] {
      var (init, last) := (rs[..|rs| - 1], rs[|rs| - 1]);
      GroupMatches(init, slot);
      GroupMatches(init, last.slot);
      AddMatches(Group(init), last, slot);
      SummaryGrows(rs, slot);
    }
  }

  /** Each job with its own receipts, summed directly. */
  function PerJob(fees: seq<JobFee>, rs: seq<Receipt>): seq<Margin> {
    if fees == [] then []
    else
      [Margin(fees[0].slot, fees[0].revenue, CostIn(rs, fees[0].slot), UnpricedIn(rs, fees[0].slot))]
      + PerJob(fees[1..], rs)
  }

  /** No fan-out: the join has one row per job, whatever the number of receipts. */
  lemma {:induction false} JoinHasNoFanOut(fees: seq<JobFee>, rs: seq<Receipt>)
    ensures Joined(fees, Group(rs)) == PerJob(fees, rs) && |PerJob(fees, rs)| == |fees|
  {
    if fees != [] {
      GroupMatches(rs, fees[0].slot);
      JoinHasNoFanOut(fees[1..], rs);
      var costs := Matches(Group(rs), fees[0].slot);
      if costs != [] {
        assert costs[1..] == [] && Pairings(fees[0], []) == [];
        assert Pairings(fees[0], costs) == [Margin(fees[0].slot, fees[0].revenue, costs[0].cost, costs[0].unpriced)];
      }
    }
  }

  // ----- the report -----

  function Revenue(fees: seq<JobFee>, line: Line): nat {
    if fees == [] then 0
    else Revenue(fees[1..], line) + (if LineOf(fees[0].slot) == line then fees[0].revenue else 0)
  }

  predicate HasJob(fees: seq<JobFee>, slot: Slot) {
    exists i :: 0 <= i < |fees| && fees[i].slot == slot
  }

  predicate OneFeePerJob(fees: seq<JobFee>) {
    forall i, j :: 0 <= i < j < |fees| ==> fees[i].slot != fees[j].slot
  }

  /** The receipt belongs to the line and its job exists. */
  predicate Attributed(fees: seq<JobFee>, line: Line, r: Receipt) {
    LineOf(r.slot) == line && HasJob(fees, r.slot)
  }

  function Spent(fees: seq<JobFee>, line: Line, rs: seq<Receipt>): nat {
    if rs == [] then 0
    else Spent(fees, line, rs[..|rs| - 1]) + (if Attributed(fees, line, rs[|rs| - 1]) then Price(rs[|rs| - 1]) else 0)
  }

  function Pending(fees: seq<JobFee>, line: Line, rs: seq<Receipt>): nat {
    if rs == [] then 0
    else Pending(fees, line, rs[..|rs| - 1]) + (if Attributed(fees, line, rs[|rs| - 1]) then Missing(rs[|rs| - 1]) else 0)
  }

  /** Jobs of the line whose receipts cost more than they earned. */
  function Losing(fees: seq<JobFee>, line: Line, rs: seq<Receipt>): nat {
    if fees == [] then 0
    else
      Losing(fees[1..], line, rs)
      + (if LineOf(fees[0].slot) == line && CostIn(rs, fees[0].slot) > fees[0].revenue then 1 else 0)
  }

  lemma {:induction false} RevenueTotal(fees: seq<JobFee>, rs: seq<Receipt>, line: Line)
    ensures Total(PerJob(fees, rs), line).revenue == Revenue(fees, line)
    ensures Total(PerJob(fees, rs), line).losing == Losing(fees, line, rs)
    ensures var t := Total(PerJob(fees, rs), line); t.margin == t.revenue - t.cost
  {
    if fees != [] {
      RevenueTotal(fees[1..], rs, line);
      assert PerJob(fees, rs)[1..] == PerJob(fees[1..], rs);
    }
  }

  lemma {:induction false} NoReceiptsNoCost(fees: seq<JobFee>, line: Line)
    ensures Total(PerJob(fees, []), line).cost == 0 && Total(PerJob(fees, []), line).unpriced == 0
  {
    if fees != [] {
      NoReceiptsNoCost(fees[1..], line);
      assert PerJob(fees, [])[1..] == PerJob(fees[1..], []);
    }
  }

  lemma HasJobHead(fees: seq<JobFee>, slot: Slot)
    requires fees != []
    ensures HasJob(fees, slot) <==> fees[0].slot == slot || HasJob(fees[1..], slot)
  {
    if HasJob(fees[1..], slot) {
      var i :| 0 <= i < |fees[1..]| && fees[1..][i].slot == slot;
      assert fees[i + 1].slot == slot;
    }
    if HasJob(fees, slot) && fees[0].slot != slot {
      var i :| 0 <= i < |fees| && fees[i].slot == slot;
      assert fees[1..][i - 1].slot == slot;
    }
  }

  lemma HasJobTail(fees: seq<JobFee>, slot: Slot)
    requires fees != [] && OneFeePerJob(fees)
    ensures HasJob(fees, slot) <==> fees[0].slot == slot || HasJob(fees[1..], slot)
    ensures fees[0].slot == slot ==> !HasJob(fees[1..], slot)
  {
    HasJobHead(fees, slot);
    if HasJob(fees[1..], slot) {
      var i :| 0 <= i < |fees[1..]| && fees[1..][i].slot == slot;
      assert fees[i + 1].slot == slot;
    }
  }

  /** One more receipt adds its price once to the line of its job, or nowhere. */
  lemma {:induction false} OneMoreReceipt(fees: seq<JobFee>, rs: seq<Receipt>, line: Line)
    requires rs != [] && OneFeePerJob(fees)
    ensures var (before, after, last) :=
        (Total(PerJob(fees, rs[..|rs| - 1]), line), Total(PerJob(fees, rs), line), rs[|rs| - 1]);
      && after.cost == before.cost + (if Attributed(fees, line, last) then Price(last) else 0)
      && after.unpriced == before.unpriced + (if Attributed(fees, line, last) then Missing(last) else 0)
  {
    if fees != [] {
      OneMoreReceipt(fees[1..], rs, line);
      HasJobTail(fees, rs[|rs| - 1].slot);
      assert PerJob(fees, rs)[1..] == PerJob(fees[1..], rs);
      assert PerJob(fees, rs[..|rs| - 1])[1..] == PerJob(fees[1..], rs[..|rs| - 1]);
    }
  }

  lemma {:induction false} CostTotal(fees: seq<JobFee>, rs: seq<Receipt>, line: Line)
    requires OneFeePerJob(fees)
    ensures Total(PerJob(fees, rs), line).cost == Spent(fees, line, rs)
    ensures Total(PerJob(fees, rs), line).unpriced == Pending(fees, line, rs)
  {
    if rs == [] {
      NoReceiptsNoCost(fees, line);
    } else {
      CostTotal(fees, rs[..|rs| - 1], line);
      OneMoreReceipt(fees, rs, line);
    }
  }

  /** The report: revenue counts each job once however many receipts it has, margin is revenue minus
      cost, cost is the sum of priced receipts that have a job of that role, the losing count is the
      number of jobs whose own receipts exceed their fee, and the unpriced count is the number of
      unpriced receipts that have a job. */
  lemma ReportMeaning(fees: seq<JobFee>, rs: seq<Receipt>, line: Line)
    requires OneFeePerJob(fees)
    ensures var stat := WorkerFeeStat(fees, rs, line);
      && stat.revenue == Revenue(fees, line) && stat.margin == stat.revenue - stat.cost
      && stat.cost == Spent(fees, line, rs) && stat.losing == Losing(fees, line, rs)
      && stat.unpriced == Pending(fees, line, rs)
  {
    JoinHasNoFanOut(fees, rs);
    RevenueTotal(fees, rs, line);
    CostTotal(fees, rs, line);
  }

  // ----- the order in which receipts are listed does not matter -----

  function Sum(rs: seq<Receipt>, f: Receipt -> nat): nat {
    if rs == [] then 0 else Sum(rs[..|rs| - 1], f) + f(rs[|rs| - 1])
  }

  lemma {:induction false} SumWithout(rs: seq<Receipt>, f: Receipt -> nat, i: nat)
    requires i < |rs|
    ensures Sum(rs, f) == Sum(rs[..i] + rs[i + 1..], f) + f(rs[i])
  {
    var last := |rs| - 1;
    if i == last {
      assert rs[..i] + rs[i + 1..] == rs[..last];
    } else {
      SumWithout(rs[..last], f, i);
      var shorter := rs[..last][..i] + rs[..last][i + 1..];
      assert rs[..i] + rs[i + 1..] == shorter + [rs[last]];
      assert (shorter + [rs[last]])[..|shorter|] == shorter;
    }
  }

  lemma TakeOut(rs: seq<Receipt>, i: nat)
    requires i < |rs|
    ensures multiset(rs[..i] + rs[i + 1..]) == multiset(rs) - multiset{rs[i]}
  {
    assert rs == rs[..i] + [rs[i]] + rs[i + 1..];
  }

  lemma {:induction false} SumInAnyOrder(rs: seq<Receipt>, other: seq<Receipt>, f: Receipt -> nat)
    requires multiset(rs) == multiset(other)
    ensures Sum(rs, f) == Sum(other, f)
  {
    if rs == [] {
      assert |multiset(other)| == 0;
    } else {
      var last := |rs| - 1;
      assert rs[last] in multiset(rs);
      var i :| 0 <= i < |other| && other[i] == rs[last];
      TakeOut(other, i);
      TakeOut(rs, last);
      assert rs[..last] + rs[last + 1..] == rs[..last];
      SumWithout(other, f, i);
      SumInAnyOrder(rs[..last], other[..i] + other[i + 1..], f);
    }
  }

  function PriceIn(slot: Slot): Receipt -> nat {
    (r: Receipt) => if r.slot == slot then Price(r) else 0
  }

  function MissingIn(slot: Slot): Receipt -> nat {
    (r: Receipt) => if r.slot == slot then Missing(r) else 0
  }

  lemma {:induction false} SlotSums(rs: seq<Receipt>, slot: Slot)
    ensures CostIn(rs, slot) == Sum(rs, PriceIn(slot)) && UnpricedIn(rs, slot) == Sum(rs, MissingIn(slot))
  {
    if rs != [] { SlotSums(rs[..|rs| - 1], slot); }
  }

  lemma {:induction false} PerJobInAnyOrder(fees: seq<JobFee>, rs: seq<Receipt>, other: seq<Receipt>)
    requires multiset(rs) == multiset(other)
    ensures PerJob(fees, rs) == PerJob(fees, other)
  {
    if fees != [] {
      var slot := fees[0].slot;
      SlotSums(rs, slot);
      SlotSums(other, slot);
      SumInAnyOrder(rs, other, PriceIn(slot));
      SumInAnyOrder(rs, other, MissingIn(slot));
      PerJobInAnyOrder(fees[1..], rs, other);
    }
  }

  /** Every figure of the report is the same for every order of the receipts. */
  lemma ReportInAnyOrder(fees: seq<JobFee>, rs: seq<Receipt>, other: seq<Receipt>, line: Line)
    requires multiset(rs) == multiset(other)
    ensures WorkerFeeStat(fees, rs, line) == WorkerFeeStat(fees, other, line)
  {
    JoinHasNoFanOut(fees, rs);
    JoinHasNoFanOut(fees, other);
    PerJobInAnyOrder(fees, rs, other);
  }

  // ----- the unpriced list -----

  /** A mined worker transaction whose cost still needs pricing. */
  predicate UnpricedRow(db: Db, id: nat) {
    Counted(db, id) && db.outbox[id].cost.src.None?
  }

  function SortKey(db: Db, id: nat): (int, nat) {
    (if id in db.outbox then db.outbox[id].cost.observedAt else 0, id)
  }

  /** By time of observation and then by id. */
  predicate KeyLe(a: (int, nat), b: (int, nat)) {
    a.0 < b.0 || (a.0 == b.0 && a.1 <= b.1)
  }

  lemma KeyLeIsTotalOrder()
    ensures Sorting.TotalOrder(KeyLe)
  {
  }

  /** Unpriced rows in listing order, at most `limit` of them, and none omitted that comes earlier. */
  ghost predicate FirstUnpriced(db: Db, ids: seq<nat>, limit: nat) {
    && |ids| <= limit && (forall id :: id in ids ==> UnpricedRow(db, id))
    && (forall i, j :: 0 <= i < j < |ids| ==> ids[i] != ids[j] && KeyLe(SortKey(db, ids[i]), SortKey(db, ids[j])))
    && forall o :: UnpricedRow(db, o) && o !in ids ==>
         |ids| == limit && forall id :: id in ids ==> KeyLe(SortKey(db, id), SortKey(db, o))
  }

  method CollectUnpriced(db: Db) returns (keys: seq<(int, nat)>)
    ensures forall id :: UnpricedRow(db, id) ==> SortKey(db, id) in keys
    ensures forall k :: k in keys ==> UnpricedRow(db, k.1) && k == SortKey(db, k.1)
    ensures forall i, j :: 0 <= i < j < |keys| ==> keys[i] != keys[j]
  {
    keys := [];
    var todo := db.outbox.Keys;
    while todo != {}
      invariant todo <= db.outbox.Keys
      invariant forall id :: UnpricedRow(db, id) && id !in todo ==> SortKey(db, id) in keys
      invariant forall k :: k in keys ==> UnpricedRow(db, k.1) && k == SortKey(db, k.1) && k.1 !in todo
      invariant forall i, j :: 0 <= i < j < |keys| ==> keys[i] != keys[j]
      decreases |todo|
    {
      var id :| id in todo;
      if UnpricedRow(db, id) { keys := keys + [SortKey(db, id)]; }
      todo := todo - {id};
    }
  }

  lemma SortedOnce(keys: seq<(int, nat)>)
    requires forall i, j :: 0 <= i < j < |keys| ==> keys[i] != keys[j]
    ensures var sorted := Sorting.Sort(keys, KeyLe);
      && Sorting.Sorted(sorted, KeyLe) && (forall k :: k in sorted <==> k in keys)
      && forall i, j :: 0 <= i < j < |sorted| ==> sorted[i] != sorted[j]
  {
    KeyLeIsTotalOrder();
    Sorting.SortSorts(keys, KeyLe);
    var sorted := Sorting.Sort(keys, KeyLe);
    forall k ensures k in sorted <==> k in keys {
      assert k in sorted <==> k in multiset(sorted);
      assert k in keys <==> k in multiset(keys);
    }
    Sorting.NoRepeats(keys, sorted);
  }

  /** The earliest unpriced receipts, as the query lists them. */
  method ListUnpriced(db: Db, limit: int) returns (r: Reply<seq<nat>>)
    ensures limit <= 0 ==> r == Err(InvalidArgument)
    ensures limit > 0 ==> r.Ok? && FirstUnpriced(db, r.value, limit)
  {
    if limit <= 0 { return Err(InvalidArgument); }
    var keys := CollectUnpriced(db);
    SortedOnce(keys);
    var sorted := Sorting.Sort(keys, KeyLe);
    var n := if |sorted| <= limit then |sorted| else limit;
    var ids := seq(n, i requires 0 <= i < n => sorted[i].1);
    FirstOfSorted(db, sorted, ids, limit);
    return Ok(ids);
  }

  lemma FirstOfSorted(db: Db, sorted: seq<(int, nat)>, ids: seq<nat>, limit: nat)
    requires Sorting.Sorted(sorted, KeyLe) && forall i, j :: 0 <= i < j < |sorted| ==> sorted[i] != sorted[j]
    requires forall id :: UnpricedRow(db, id) ==> SortKey(db, id) in sorted
    requires forall k :: k in sorted ==> UnpricedRow(db, k.1) && k == SortKey(db, k.1)
    requires |ids| == (if |sorted| <= limit then |sorted| else limit)
    requires forall i :: 0 <= i < |ids| ==> ids[i] == sorted[i].1
    ensures FirstUnpriced(db, ids, limit)
  {
    forall i | 0 <= i < |ids| ensures SortKey(db, ids[i]) == sorted[i] && UnpricedRow(db, ids[i]) {
      assert sorted[i] in sorted;
    }
    forall o | UnpricedRow(db, o) && o !in ids
      ensures |ids| == limit && forall id :: id in ids ==> KeyLe(SortKey(db, id), SortKey(db, o))
    {
      var j :| 0 <= j < |sorted| && sorted[j] == SortKey(db, o);
      assert |ids| <= j;
    }
  }

  /** An unpriced row of the line whose job exists. */
  predicate IsPending(db: Db, fees: seq<JobFee>, line: Line, id: nat) {
    UnpricedRow(db, id) && Attributed(fees, line, ReceiptOf(db, id))
  }

  ghost function PendingIn(db: Db, fees: seq<JobFee>, line: Line, ids: seq<nat>): set<nat> {
    set id | id in ids && IsPending(db, fees, line, id)
  }

  lemma PendingInGrows(db: Db, fees: seq<JobFee>, line: Line, ids: seq<nat>)
    requires ids != [] && forall i, j :: 0 <= i < j < |ids| ==> ids[i] != ids[j]
    ensures |PendingIn(db, fees, line, ids)|
         == |PendingIn(db, fees, line, ids[..|ids| - 1])| + if IsPending(db, fees, line, ids[|ids| - 1]) then 1 else 0
  {
    var (init, last) := (ids[..|ids| - 1], ids[|ids| - 1]);
    assert forall id :: id in ids <==> id in init || id == last;
    if IsPending(db, fees, line, last) {
      assert PendingIn(db, fees, line, ids) == PendingIn(db, fees, line, init) + {last};
    } else {
      assert PendingIn(db, fees, line, ids) == PendingIn(db, fees, line, init);
    }
  }

  lemma {:induction false} PendingCounts(db: Db, fees: seq<JobFee>, line: Line, ids: seq<nat>)
    requires forall i, j :: 0 <= i < j < |ids| ==> ids[i] != ids[j]
    ensures Pending(fees, line, Receipts(db, ids)) == |PendingIn(db, fees, line, ids)|
  {
    if ids == [] {
      assert PendingIn(db, fees, line, ids) == {};
    } else {
      PendingCounts(db, fees, line, ids[..|ids| - 1]);
      PendingInGrows(db, fees, line, ids);
      PendingAppend(db, fees, line, ids);
    }
  }

  lemma PendingAppend(db: Db, fees: seq<JobFee>, line: Line, ids: seq<nat>)
    requires ids != []
    ensures Pending(fees, line, Receipts(db, ids))
         == Pending(fees, line, Receipts(db, ids[..|ids| - 1])) + if IsPending(db, fees, line, ids[|ids| - 1]) then 1 else 0
  {
    var (init, last) := (Receipts(db, ids[..|ids| - 1]), ids[|ids| - 1]);
    if Counted(db, last) {
      var rs := init + [ReceiptOf(db, last)];
      assert rs[..|rs| - 1] == init;
    } else {
      assert Receipts(db, ids) == init;
    }
  }

  /** The report's unpriced count is the number of entries in the unlimited unpriced list whose job exists. */
  lemma UnpricedListAgrees(db: Db, fees: seq<JobFee>, line: Line, ids: seq<nat>, listed: seq<nat>, limit: nat)
    requires OneFeePerJob(fees) && FirstUnpriced(db, listed, limit) && |listed| < limit
    requires (forall i, j :: 0 <= i < j < |ids| ==> ids[i] != ids[j]) && forall id :: id in ids <==> id in db.outbox
    ensures WorkerFeeStat(fees, Receipts(db, ids), line).unpriced == |PendingIn(db, fees, line, listed)|
  {
    ReportMeaning(fees, Receipts(db, ids), line);
    PendingCounts(db, fees, line, ids);
    assert PendingIn(db, fees, line, ids) == PendingIn(db, fees, line, listed);
  }

  // ----- the tables give one fee per job -----

  predicate Distinct(guids: seq<Guid>) {
    forall i, j :: 0 <= i < j < |guids| ==> guids[i] != guids[j]
  }

  lemma {:induction false} ExecutorFeesFrom(db: Db, guids: seq<Guid>, k: nat)
    requires k < |ExecutorFees(db, guids)|
    ensures ExecutorFees(db, guids)[k].slot.role == ExecutorRole && ExecutorFees(db, guids)[k].slot.guid in guids
  {
    var here := if guids[0] in db.jobs && guids[0] in db.packets then 1 else 0;
    if k >= here { ExecutorFeesFrom(db, guids[1..], k - here); }
  }

  lemma {:induction false} DvnFeesFrom(db: Db, guids: seq<Guid>, k: nat)
    requires k < |DvnFees(db, guids)|
    ensures DvnFees(db, guids)[k].slot.role == DvnRole && DvnFees(db, guids)[k].slot.guid in guids
  {
    var here := if guids[0] in db.dvn && guids[0] in db.packets then 1 else 0;
    if k >= here { DvnFeesFrom(db, guids[1..], k - here); }
  }

  lemma {:induction false} ExecutorFeesUnique(db: Db, guids: seq<Guid>)
    requires Distinct(guids)
    ensures OneFeePerJob(ExecutorFees(db, guids))
  {
    if guids != [] {
      var (fees, rest) := (ExecutorFees(db, guids), ExecutorFees(db, guids[1..]));
      ExecutorFeesUnique(db, guids[1..]);
      forall k | 0 <= k < |rest| ensures rest[k].slot.guid != guids[0] { ExecutorFeesFrom(db, guids[1..], k); }
      assert |fees| == |rest| ==> fees == rest;
      assert |fees| != |rest| ==> fees[1..] == rest;
    }
  }

  lemma {:induction false} DvnFeesUnique(db: Db, guids: seq<Guid>)
    requires Distinct(guids)
    ensures OneFeePerJob(DvnFees(db, guids))
  {
    if guids != [] {
      var (fees, rest) := (DvnFees(db, guids), DvnFees(db, guids[1..]));
      DvnFeesUnique(db, guids[1..]);
      forall k | 0 <= k < |rest| ensures rest[k].slot.guid != guids[0] { DvnFeesFrom(db, guids[1..], k); }
      assert |fees| == |rest| ==> fees == rest;
      assert |fees| != |rest| ==> fees[1..] == rest;
    }
  }

  /** The union of both job tables has one fee per job and role, in whatever order they are listed. */
  lemma OneFeeEach(db: Db, executors: seq<Guid>, dvns: seq<Guid>)
    requires Distinct(executors) && Distinct(dvns)
    ensures OneFeePerJob(ExecutorFees(db, executors) + DvnFees(db, dvns))
  {
    var (a, b) := (ExecutorFees(db, executors), DvnFees(db, dvns));
    ExecutorFeesUnique(db, executors);
    DvnFeesUnique(db, dvns);
    forall k | 0 <= k < |a| ensures a[k].slot.role == ExecutorRole { ExecutorFeesFrom(db, executors, k); }
    forall k | 0 <= k < |b| ensures b[k].slot.role == DvnRole { DvnFeesFrom(db, dvns, k); }
  }

  // ----- the figures over the tables themselves -----

  /** The packet runs along the line. */
  predicate OnLine(db: Db, g: Guid, line: Line) {
    g in db.packets && db.packets[g].key.src == line.src && db.packets[g].key.dst == line.dst
  }

  /** The fee of the line's role for a packet; a missing fee is zero. */
  function FeeFor(db: Db, g: Guid, role: Role): nat {
    match role
    case ExecutorRole => if g in db.jobs && db.jobs[g].fee.Some? then db.jobs[g].fee.value else 0
    case DvnRole => if g in db.dvn && db.dvn[g].fee.Some? then db.dvn[g].fee.value else 0
  }

  predicate HasRole(db: Db, g: Guid, role: Role) {
    match role
    case ExecutorRole => g in db.jobs
    case DvnRole => g in db.dvn
  }

  /** The sum of the fees of the line's jobs. */
  function Earned(db: Db, guids: seq<Guid>, line: Line): nat {
    if guids == [] then 0
    else Earned(db, guids[1..], line) + if HasRole(db, guids[0], line.role) && OnLine(db, guids[0], line) then FeeFor(db, guids[0], line.role) else 0
  }

  /** The transaction mined for a packet in the role: commits and deliveries are the executor's,
      verifications the DVN's. */
  predicate MinedFor(row: Row, g: Guid, role: Role) {
    && row.cost.dst.Some? && row.req.guid == Some(g)
    && match role
       case ExecutorRole => row.req.purpose == CommitVerification || row.req.purpose == LzReceive
       case DvnRole => row.req.purpose == DvnVerify
  }

  /** The transaction mined for some job of the line. */
  predicate MinedOnLine(db: Db, id: nat, line: Line) {
    && id in db.outbox && db.outbox[id].req.guid.Some?
    && var g := db.outbox[id].req.guid.value;
       MinedFor(db.outbox[id], g, line.role) && OnLine(db, g, line) && HasRole(db, g, line.role)
  }

  function PricedCost(row: Row): nat {
    if row.cost.src.Some? then row.cost.src.value else 0
  }

  /** The sum of the priced costs of the line's mined transactions. */
  function Paid(db: Db, ids: seq<nat>, line: Line): nat {
    if ids == [] then 0
    else Paid(db, ids[..|ids| - 1], line) + if MinedOnLine(db, ids[|ids| - 1], line) then PricedCost(db.outbox[ids[|ids| - 1]]) else 0
  }

  /** The sum of the priced costs of one packet's transactions in the role. */
  function PaidFor(db: Db, ids: seq<nat>, g: Guid, role: Role): nat {
    if ids == [] then 0
    else
      var id := ids[|ids| - 1];
      PaidFor(db, ids[..|ids| - 1], g, role) + if id in db.outbox && MinedFor(db.outbox[id], g, role) then PricedCost(db.outbox[id]) else 0
  }

  /** The number of the line's jobs that cost more than they earned. */
  function Unprofitable(db: Db, guids: seq<Guid>, ids: seq<nat>, line: Line): nat {
    if guids == [] then 0
    else
      var g := guids[0];
      Unprofitable(db, guids[1..], ids, line)
      + if HasRole(db, g, line.role) && OnLine(db, g, line) && PaidFor(db, ids, g, line.role) > FeeFor(db, g, line.role) then 1 else 0
  }

  lemma {:induction false} ExecutorRevenue(db: Db, guids: seq<Guid>, line: Line)
    ensures Revenue(ExecutorFees(db, guids), line) == if line.role.ExecutorRole? then Earned(db, guids, line) else 0
  {
    if guids != [] {
      ExecutorRevenue(db, guids[1..], line);
      var (fees, rest) := (ExecutorFees(db, guids), ExecutorFees(db, guids[1..]));
      assert |fees| == |rest| ==> fees == rest;
      assert |fees| != |rest| ==> fees[1..] == rest;
    }
  }

  lemma {:induction false} DvnRevenue(db: Db, guids: seq<Guid>, line: Line)
    ensures Revenue(DvnFees(db, guids), line) == if line.role.DvnRole? then Earned(db, guids, line) else 0
  {
    if guids != [] {
      DvnRevenue(db, guids[1..], line);
      var (fees, rest) := (DvnFees(db, guids), DvnFees(db, guids[1..]));
      assert |fees| == |rest| ==> fees == rest;
      assert |fees| != |rest| ==> fees[1..] == rest;
    }
  }

  lemma {:induction false} RevenueJoins(a: seq<JobFee>, b: seq<JobFee>, line: Line)
    ensures Revenue(a + b, line) == Revenue(a, line) + Revenue(b, line)
  {
    if a == [] {
      assert a + b == b;
    } else {
      RevenueJoins(a[1..], b, line);
      assert (a + b)[1..] == a[1..] + b;
    }
  }

  lemma {:induction false} LosingJoins(a: seq<JobFee>, b: seq<JobFee>, line: Line, rs: seq<Receipt>)
    ensures Losing(a + b, line, rs) == Losing(a, line, rs) + Losing(b, line, rs)
  {
    if a == [] {
      assert a + b == b;
    } else {
      LosingJoins(a[1..], b, line, rs);
      assert (a + b)[1..] == a[1..] + b;
    }
  }

  lemma CostAppend(db: Db, ids: seq<nat>, slot: Slot)
    requires ids != []
    ensures var last := ids[|ids| - 1];
      CostIn(Receipts(db, ids), slot) == CostIn(Receipts(db, ids[..|ids| - 1]), slot)
        + if Counted(db, last) && ReceiptOf(db, last).slot == slot then Price(ReceiptOf(db, last)) else 0
  {
    var (init, last) := (Receipts(db, ids[..|ids| - 1]), ids[|ids| - 1]);
    if Counted(db, last) {
      var rs := init + [ReceiptOf(db, last)];
      assert rs[..|rs| - 1] == init;
    } else {
      assert Receipts(db, ids) == init;
    }
  }

  /** The receipts grouped under a job are the transactions mined for its packet in its role. */
  lemma {:induction false} CostOfJob(db: Db, ids: seq<nat>, g: Guid, role: Role)
    requires g in db.packets
    ensures CostIn(Receipts(db, ids), SlotOf(db, role, g)) == PaidFor(db, ids, g, role)
  {
    if ids != [] {
      CostOfJob(db, ids[..|ids| - 1], g, role);
      CostAppend(db, ids, SlotOf(db, role, g));
      MinedIff(db, ids[|ids| - 1], g, role);
    }
  }

  lemma MinedIff(db: Db, id: nat, g: Guid, role: Role)
    requires g in db.packets
    ensures Counted(db, id) && ReceiptOf(db, id).slot == SlotOf(db, role, g) <==> id in db.outbox && MinedFor(db.outbox[id], g, role)
    ensures Counted(db, id) ==> Price(ReceiptOf(db, id)) == PricedCost(db.outbox[id])
  {
    if Counted(db, id) { SlotIff(db, id, g, role); }
  }

  lemma SlotIff(db: Db, id: nat, g: Guid, role: Role)
    requires Counted(db, id) && g in db.packets
    ensures ReceiptOf(db, id).slot == SlotOf(db, role, g) <==> MinedFor(db.outbox[id], g, role)
  {
  }

  lemma {:induction false} ExecutorLosing(db: Db, guids: seq<Guid>, ids: seq<nat>, line: Line)
    ensures Losing(ExecutorFees(db, guids), line, Receipts(db, ids))
         == if line.role.ExecutorRole? then Unprofitable(db, guids, ids, line) else 0
  {
    if guids != [] {
      ExecutorLosing(db, guids[1..], ids, line);
      var (fees, rest) := (ExecutorFees(db, guids), ExecutorFees(db, guids[1..]));
      assert |fees| == |rest| ==> fees == rest;
      assert |fees| != |rest| ==> fees[1..] == rest;
      if guids[0] in db.packets { CostOfJob(db, ids, guids[0], ExecutorRole); }
    }
  }

  lemma {:induction false} DvnLosing(db: Db, guids: seq<Guid>, ids: seq<nat>, line: Line)
    ensures Losing(DvnFees(db, guids), line, Receipts(db, ids))
         == if line.role.DvnRole? then Unprofitable(db, guids, ids, line) else 0
  {
    if guids != [] {
      DvnLosing(db, guids[1..], ids, line);
      var (fees, rest) := (DvnFees(db, guids), DvnFees(db, guids[1..]));
      assert |fees| == |rest| ==> fees == rest;
      assert |fees| != |rest| ==> fees[1..] == rest;
      if guids[0] in db.packets { CostOfJob(db, ids, guids[0], DvnRole); }
    }
  }

  lemma {:induction false} ExecutorHasJob(db: Db, guids: seq<Guid>, g: Guid, role: Role)
    requires g in db.packets
    ensures HasJob(ExecutorFees(db, guids), SlotOf(db, role, g)) <==> role.ExecutorRole? && g in guids && g in db.jobs
  {
    if guids != [] {
      ExecutorHasJob(db, guids[1..], g, role);
      var (fees, rest) := (ExecutorFees(db, guids), ExecutorFees(db, guids[1..]));
      assert g in guids <==> g == guids[0] || g in guids[1..];
      if |fees| == |rest| {
        assert fees == rest;
      } else {
        HasJobHead(fees, SlotOf(db, role, g));
        assert fees[1..] == rest;
      }
    }
  }

  lemma {:induction false} DvnHasJob(db: Db, guids: seq<Guid>, g: Guid, role: Role)
    requires g in db.packets
    ensures HasJob(DvnFees(db, guids), SlotOf(db, role, g)) <==> role.DvnRole? && g in guids && g in db.dvn
  {
    if guids != [] {
      DvnHasJob(db, guids[1..], g, role);
      var (fees, rest) := (DvnFees(db, guids), DvnFees(db, guids[1..]));
      assert g in guids <==> g == guids[0] || g in guids[1..];
      if |fees| == |rest| {
        assert fees == rest;
      } else {
        HasJobHead(fees, SlotOf(db, role, g));
        assert fees[1..] == rest;
      }
    }
  }

  lemma HasJobJoins(a: seq<JobFee>, b: seq<JobFee>, slot: Slot)
    ensures HasJob(a + b, slot) <==> HasJob(a, slot) || HasJob(b, slot)
  {
    if HasJob(a, slot) {
      var i :| 0 <= i < |a| && a[i].slot == slot;
      assert (a + b)[i].slot == slot;
    }
    if HasJob(b, slot) {
      var i :| 0 <= i < |b| && b[i].slot == slot;
      assert (a + b)[|a| + i].slot == slot;
    }
    if HasJob(a + b, slot) {
      var i :| 0 <= i < |a + b| && (a + b)[i].slot == slot;
      assert i < |a| ==> a[i].slot == slot;
      assert i >= |a| ==> b[i - |a|].slot == slot;
    }
  }

  /** The listings hold every job, once. */
  ghost predicate ListJobs(db: Db, executors: seq<Guid>, dvns: seq<Guid>) {
    && Distinct(executors) && Distinct(dvns)
    && (forall g :: g in executors <==> g in db.jobs) && (forall g :: g in dvns <==> g in db.dvn)
  }

  ghost predicate ListRows(db: Db, ids: seq<nat>) {
    (forall i, j :: 0 <= i < j < |ids| ==> ids[i] != ids[j]) && forall id :: id in ids <==> id in db.outbox
  }

  lemma AttributedIff(db: Db, executors: seq<Guid>, dvns: seq<Guid>, id: nat, line: Line)
    requires ListJobs(db, executors, dvns) && Counted(db, id)
    ensures Attributed(ExecutorFees(db, executors) + DvnFees(db, dvns), line, ReceiptOf(db, id)) <==> MinedOnLine(db, id, line)
  {
    var g := db.outbox[id].req.guid.value;
    var role := RoleOf(db.outbox[id].req.purpose);
    HasJobJoins(ExecutorFees(db, executors), DvnFees(db, dvns), SlotOf(db, role, g));
    ExecutorHasJob(db, executors, g, role);
    DvnHasJob(db, dvns, g, role);
    SlotIff(db, id, g, role);
  }

  lemma {:induction false} SpentIsPaid(db: Db, executors: seq<Guid>, dvns: seq<Guid>, ids: seq<nat>, line: Line)
    requires ListJobs(db, executors, dvns)
    ensures Spent(ExecutorFees(db, executors) + DvnFees(db, dvns), line, Receipts(db, ids)) == Paid(db, ids, line)
  {
    if ids != [] {
      SpentIsPaid(db, executors, dvns, ids[..|ids| - 1], line);
      var (init, last) := (Receipts(db, ids[..|ids| - 1]), ids[|ids| - 1]);
      if Counted(db, last) {
        var rs := init + [ReceiptOf(db, last)];
        assert rs[..|rs| - 1] == init;
        AttributedIff(db, executors, dvns, last, line);
      } else {
        assert Receipts(db, ids) == init;
        assert !MinedOnLine(db, last, line);
      }
    }
  }

  /** The entries of the unpriced list that belong to the line. */
  ghost function UnpricedOnLine(db: Db, listed: seq<nat>, line: Line): set<nat> {
    set id | id in listed && MinedOnLine(db, id, line) && db.outbox[id].cost.src.None?
  }

  lemma PendingOnLine(db: Db, executors: seq<Guid>, dvns: seq<Guid>, listed: seq<nat>, line: Line)
    requires ListJobs(db, executors, dvns)
    ensures PendingIn(db, ExecutorFees(db, executors) + DvnFees(db, dvns), line, listed) == UnpricedOnLine(db, listed, line)
  {
    var fees := ExecutorFees(db, executors) + DvnFees(db, dvns);
    forall id | id in listed
      ensures IsPending(db, fees, line, id) <==> MinedOnLine(db, id, line) && db.outbox[id].cost.src.None?
    {
      if Counted(db, id) { AttributedIff(db, executors, dvns, id, line); }
    }
  }

  /** The fee report over the tables: a line's revenue is the sum of the fees of its jobs, its cost the
      sum of the priced costs of the transactions mined for them, its margin the difference, its losing
      count the number of its jobs that cost more than their fee, and its unpriced count the number of
      its transactions in the complete list of those still to be priced. */
  lemma DatabaseReport(db: Db, executors: seq<Guid>, dvns: seq<Guid>, ids: seq<nat>, line: Line, listed: seq<nat>, limit: nat)
    requires ListJobs(db, executors, dvns) && ListRows(db, ids) && FirstUnpriced(db, listed, limit) && |listed| < limit
    ensures var stat := WorkerFeeStat(ExecutorFees(db, executors) + DvnFees(db, dvns), Receipts(db, ids), line);
      var guids := if line.role.ExecutorRole? then executors else dvns;
      && stat.revenue == Earned(db, guids, line) && stat.cost == Paid(db, ids, line) && stat.margin == stat.revenue - stat.cost
      && stat.losing == Unprofitable(db, guids, ids, line)
      && stat.unpriced == |UnpricedOnLine(db, listed, line)|
  {
    var (fees, rs) := (ExecutorFees(db, executors) + DvnFees(db, dvns), Receipts(db, ids));
    OneFeeEach(db, executors, dvns);
    ReportMeaning(fees, rs, line);
    RevenueJoins(ExecutorFees(db, executors), DvnFees(db, dvns), line);
    ExecutorRevenue(db, executors, line);
    DvnRevenue(db, dvns, line);
    LosingJoins(ExecutorFees(db, executors), DvnFees(db, dvns), line, rs);
    ExecutorLosing(db, executors, ids, line);
    DvnLosing(db, dvns, ids, line);
    SpentIsPaid(db, executors, dvns, ids, line);
    UnpricedListAgrees(db, fees, line, ids, listed, limit);
    PendingOnLine(db, executors, dvns, listed, line);
  }
}
