/**
 The quota cache of the agents' workspaces against the bytes on disk (modules/storage/workspace.py,
 quota.py). Files are keyed by their resolved path; only their sizes matter.
 */
module Workspaces {
  import opened Common

  type Agent = string
  type Path = string

  const MEGABYTE := 1024 * 1024

  datatype Row = Row(quota: nat, used: int)

  datatype Event = AgentQuotaExceeded(agent: Agent, limit: nat, wouldUse: int)
                 | CompanyQuotaExceeded(limit: nat, wouldUse: int)
                 | QuotaWarning(agent: Agent, used: int, limit: nat)
                 | QuotaDrift(agent: Agent, drift: int)

  datatype Store = Store(rows: map<Agent, Row>, disk: map<Agent, map<Path, nat>>, companyQuota: nat)

  /**
   What becomes of one write: it succeeds; it fails before it starts; it fails half way and the temporary
   file is removed, or that fails too and leaves so many bytes there; or the target is replaced but the row
   is not brought up to date, because the database refuses or the process dies.
   */
  datatype Fault = NONE | BEFORE | HALFWAY | STRANDED(left: nat) | UNRECORDED

  datatype Outcome = INVALID | NOT_INITIALIZED | NOT_FOUND | AGENT_QUOTA | COMPANY_QUOTA | IO_ERROR | DONE

  function Files(s: Store, a: Agent): map<Path, nat> {
    if a in s.disk then s.disk[a] else map[]
  }

  function SizeOf(s: Store, a: Agent, p: Path): nat {
    if p in Files(s, a) then Files(s, a)[p] else 0
  }

  /** The bytes an agent really has on disk. */
  ghost function Real(s: Store, a: Agent): int {
    Total(Files(s, a))
  }

  function UsedOf(rows: map<Agent, Row>): map<Agent, int> {
    map a | a in rows :: rows[a].used
  }

  ghost function CompanyUsed(s: Store): int {
    Total(UsedOf(s.rows))
  }

  predicate BadId(a: Agent) {
    a == "" || '/' in a || '\\' in a || a == "." || a == ".."
  }

  /** The file a write goes through before it replaces its target. */
  function Temporary(p: Path): Path {
    p + ".tmp"
  }

  // ------------------------------------------------------------ the operations

  function Create(s: Store, a: Agent, quotaMb: int): Store {
    if quotaMb < 0 || BadId(a) || a in s.rows then s
    else s.(rows := s.rows[a := Row(quotaMb * MEGABYTE, 0)], disk := s.disk[a := Files(s, a)])
  }

  function Ensure(s: Store, a: Agent, quotaMb: int): Store {
    if quotaMb < 0 || BadId(a) then s
    else
      var used := if a in s.rows then s.rows[a].used else 0;
      s.(rows := s.rows[a := Row(quotaMb * MEGABYTE, used)], disk := s.disk[a := Files(s, a)])
  }

  function Remove(s: Store, a: Agent): Store {
    s.(rows := s.rows - {a}, disk := s.disk - {a})
  }

  /** How a write of that many bytes is judged before the disk is touched. */
  ghost function Judged(s: Store, a: Agent, p: Path, size: nat): Outcome {
    if a !in s.disk || a !in s.rows then NOT_INITIALIZED
    else if s.rows[a].used - SizeOf(s, a, p) + size > s.rows[a].quota then AGENT_QUOTA
    else if CompanyUsed(s) - SizeOf(s, a, p) + size > s.companyQuota then COMPANY_QUOTA
    else DONE
  }

  /** A write replaces its target and consumes the temporary file, whoever made that. */
  ghost function AfterWrite(s: Store, a: Agent, p: Path, size: nat, fault: Fault): Store {
    if Judged(s, a, p, size) != DONE then s
    else
      var files := Files(s, a) - {Temporary(p)};
      match fault
      case BEFORE => s
      case HALFWAY => s.(disk := s.disk[a := files])
      case STRANDED(left) => s.(disk := s.disk[a := files[Temporary(p) := left]])
      case UNRECORDED => s.(disk := s.disk[a := files[p := size]])
      case NONE =>
        var used := s.rows[a].used - SizeOf(s, a, p) + size;
        s.(disk := s.disk[a := files[p := size]], rows := s.rows[a := s.rows[a].(used := used)])
  }

  /** A deletion may go unrecorded as well. */
  function AfterDelete(s: Store, a: Agent, p: Path, recorded: bool): Store {
    if p !in Files(s, a) then s
    else
      var left := if a in s.rows then s.rows[a].used - SizeOf(s, a, p) else 0;
      s.(disk := s.disk[a := Files(s, a) - {p}],
         rows := if recorded && a in s.rows then s.rows[a := s.rows[a].(used := if left < 0 then 0 else left)] else s.rows)
  }

  ghost function AfterReconcile(s: Store): Store {
    s.(rows := map a | a in s.rows :: s.rows[a].(used := Real(s, a)))
  }

  function AfterAgentLimit(s: Store, a: Agent, mb: int): Store {
    if mb < 0 || a !in s.rows then s else s.(rows := s.rows[a := s.rows[a].(quota := mb * MEGABYTE)])
  }

  function AfterCompanyLimit(s: Store, mb: int): Store {
    if mb < 0 then s else s.(companyQuota := mb * MEGABYTE)
  }

  datatype Op =
    | OpCreate(agent: Agent, mb: int)
    | OpEnsure(agent: Agent, mb: int)
    | OpRemove(agent: Agent)
    | OpWrite(agent: Agent, path: Path, size: nat, fault: Fault)
    | OpDelete(agent: Agent, path: Path, recorded: bool)
    | OpReconcile
    | OpAgentLimit(agent: Agent, mb: int)
    | OpCompanyLimit(mb: int)

  ghost function Step(s: Store, op: Op): Store {
    match op
    case OpCreate(a, mb) => Create(s, a, mb)
    case OpEnsure(a, mb) => Ensure(s, a, mb)
    case OpRemove(a) => Remove(s, a)
    case OpWrite(a, p, size, fault) => AfterWrite(s, a, p, size, fault)
    case OpDelete(a, p, recorded) => AfterDelete(s, a, p, recorded)
    case OpReconcile => AfterReconcile(s)
    case OpAgentLimit(a, mb) => AfterAgentLimit(s, a, mb)
    case OpCompanyLimit(mb) => AfterCompanyLimit(s, mb)
  }

  ghost function Run(s: Store, ops: seq<Op>): Store
    decreases |ops|
  {
    if ops == [] then s else Run(Step(s, ops[0]), ops[1..])
  }

  // ------------------------------------------------------------ the cache and the disk

  /** A directory per row. */
  ghost predicate Shaped(s: Store) {
    s.disk.Keys == s.rows.Keys
  }

  lemma StepKeepsShape(s: Store, op: Op)
    requires Shaped(s)
    ensures Shaped(Step(s, op))
  {
  }

  /** No row shows less than its directory holds. */
  ghost predicate CacheOk(s: Store) {
    Shaped(s) && forall a :: a in s.rows ==> Real(s, a) <= s.rows[a].used
  }

  /** By how much a row over-counts. */
  ghost function Drift(s: Store, a: Agent): int {
    if a in s.rows then s.rows[a].used - Real(s, a) else 0
  }

  ghost predicate Starts(s: Store, op: Op, a: Agent) {
    op.OpWrite? && op.agent == a && op.fault != BEFORE && Judged(s, a, op.path, op.size) == DONE
  }

  /** The bytes that go from the disk but stay counted: a file in the way of a temporary one, or what went unrecorded. */
  ghost function Consumed(s: Store, op: Op, a: Agent): nat {
    if Starts(s, op, a) then
      SizeOf(s, a, Temporary(op.path)) + (if op.fault == UNRECORDED then SizeOf(s, a, op.path) else 0)
    else if op.OpDelete? && op.agent == a && !op.recorded then SizeOf(s, a, op.path)
    else 0
  }

  /** The bytes that come to the disk without being counted. */
  ghost function LeftBehind(s: Store, op: Op, a: Agent): nat {
    if !Starts(s, op, a) then 0
    else if op.fault.STRANDED? then op.fault.left
    else if op.fault == UNRECORDED then op.size
    else 0
  }

  /** By how much a deletion would take the row below zero, where it stops. */
  ghost function Forgiven(s: Store, op: Op, a: Agent): nat {
    if op.OpDelete? && op.agent == a && op.recorded && op.path in Files(s, a) && a in s.rows && s.rows[a].used < SizeOf(s, a, op.path)
    then SizeOf(s, a, op.path) - s.rows[a].used else 0
  }

  lemma RealIsNat(s: Store, a: Agent)
    ensures 0 <= Real(s, a)
    ensures forall p :: SizeOf(s, a, p) <= Real(s, a)
  {
    TotalNonNegative(Files(s, a));
  }

  lemma TemporaryDiffers(p: Path)
    ensures Temporary(p) != p
  {
    assert |Temporary(p)| == |p| + 4;
  }

  /**
   An operation other than reconciling changes an agent's over-count by exactly the bytes that go but stay
   counted, less those that come uncounted, plus what a deletion stopping at zero forgives.
   */
  lemma StepDrift(s: Store, op: Op, a: Agent)
    requires Shaped(s) && !op.OpReconcile? && op != OpRemove(a)
    ensures Drift(Step(s, op), a) == Drift(s, a) + Consumed(s, op, a) - LeftBehind(s, op, a) + Forgiven(s, op, a)
  {
    RealIsNat(s, a);
    match op
    case OpWrite(b, p, size, fault) =>
      if b == a {
        WriteDrift(s, a, p, size, fault);
      }
    case OpDelete(b, p, recorded) =>
      if b == a {
        TotalRemove(Files(s, a), p);
      }
    case _ =>
  }

  lemma WriteDrift(s: Store, a: Agent, p: Path, size: nat, fault: Fault)
    requires Shaped(s)
    ensures
      var op := OpWrite(a, p, size, fault);
      Drift(AfterWrite(s, a, p, size, fault), a) == Drift(s, a) + Consumed(s, op, a) - LeftBehind(s, op, a)
  {
    if Judged(s, a, p, size) == DONE {
      TemporaryDiffers(p);
      TotalRemove(Files(s, a), Temporary(p));
      TotalUpdate(Files(s, a) - {Temporary(p)}, p, size);
      if fault.STRANDED? {
        TotalUpdate(Files(s, a) - {Temporary(p)}, Temporary(p), fault.left);
      }
    }
  }

  /** What the operation leaves uncounted is covered by what the row over-counts. */
  ghost predicate Covered(s: Store, op: Op) {
    op.OpWrite? ==> LeftBehind(s, op, op.agent) <= Drift(s, op.agent) + Consumed(s, op, op.agent)
  }

  /** From a cache that does not under-count, an operation leads to one exactly if what it leaves behind is covered. */
  lemma StepKeepsCacheIff(s: Store, op: Op)
    requires CacheOk(s)
    ensures CacheOk(Step(s, op)) <==> Covered(s, op)
  {
    var s' := Step(s, op);
    StepKeepsShape(s, op);
    forall a | a in s'.rows
      ensures Real(s', a) <= s'.rows[a].used <==> op.OpWrite? && op.agent == a ==> Covered(s, op)
    {
      RealIsNat(s, a);
      if !op.OpReconcile? && op != OpRemove(a) {
        StepDrift(s, op, a);
        assert Drift(s, a) >= 0 && Forgiven(s, op, a) == 0;
      }
    }
  }

  ghost predicate NeverUnderCounts(s: Store, ops: seq<Op>)
    decreases |ops|
  {
    CacheOk(s) && (ops == [] || NeverUnderCounts(Step(s, ops[0]), ops[1..]))
  }

  ghost predicate AllCovered(s: Store, ops: seq<Op>)
    decreases |ops|
  {
    ops == [] || (Covered(s, ops[0]) && AllCovered(Step(s, ops[0]), ops[1..]))
  }

  /**
   Over a run the cached number of bytes is at least the real one all along, for every agent, exactly if no
   write leaves more bytes uncounted than the row over-counts by then.
   */
  lemma {:induction false} NeverUnderCountsIff(s: Store, ops: seq<Op>)
    requires CacheOk(s)
    ensures NeverUnderCounts(s, ops) <==> AllCovered(s, ops)
    decreases |ops|
  {
    if ops != [] {
      StepKeepsCacheIff(s, ops[0]);
      if Covered(s, ops[0]) {
        NeverUnderCountsIff(Step(s, ops[0]), ops[1..]);
      }
    }
  }

  /** The write, if it is one, leaves its temporary file removed and its row up to date, or both untouched. */
  predicate CleanFault(op: Op) {
    op.OpWrite? ==> op.fault == NONE || op.fault == BEFORE || op.fault == HALFWAY
  }

  /** So the cache never under-counts over any run whose failed writes are cleaned up after. */
  lemma {:induction false} RunNeverUnderCounts(s: Store, ops: seq<Op>)
    requires CacheOk(s) && forall op :: op in ops ==> CleanFault(op)
    ensures AllCovered(s, ops) && NeverUnderCounts(s, ops) && CacheOk(Run(s, ops))
    decreases |ops|
  {
    if ops != [] {
      assert ops[0] in ops && forall op :: op in ops[1..] ==> op in ops;
      assert ops[0].OpWrite? && ops[0].agent !in s.rows ==> !Starts(s, ops[0], ops[0].agent);
      StepKeepsCacheIff(s, ops[0]);
      RunNeverUnderCounts(Step(s, ops[0]), ops[1..]);
    }
  }

  ghost function ConsumedIn(s: Store, ops: seq<Op>, a: Agent): nat
    decreases |ops|
  {
    if ops == [] then 0 else Consumed(s, ops[0], a) + Forgiven(s, ops[0], a) + ConsumedIn(Step(s, ops[0]), ops[1..], a)
  }

  ghost function LeftIn(s: Store, ops: seq<Op>, a: Agent): nat
    decreases |ops|
  {
    if ops == [] then 0 else LeftBehind(s, ops[0], a) + LeftIn(Step(s, ops[0]), ops[1..], a)
  }

  /** Until it is reconciled or removed, a row drifts by exactly what was consumed less what was left behind. */
  lemma {:induction false} DriftIsConsumed(s: Store, ops: seq<Op>, a: Agent)
    requires Shaped(s) && forall op :: op in ops ==> !op.OpReconcile? && op != OpRemove(a)
    ensures Drift(Run(s, ops), a) == Drift(s, a) + ConsumedIn(s, ops, a) - LeftIn(s, ops, a)
    decreases |ops|
  {
    if ops != [] {
      assert ops[0] in ops && forall op :: op in ops[1..] ==> op in ops;
      StepDrift(s, ops[0], a);
      StepKeepsShape(s, ops[0]);
      DriftIsConsumed(Step(s, ops[0]), ops[1..], a);
    }
  }

  /** Five bytes written, the replacing and the removing of the temporary file both fail: 5 are there, 0 counted. */
  lemma BytesStranded()
    ensures
      var s := Store(map["x" := Row(100, 0)], map["x" := map[]], 100);
      var s' := AfterWrite(s, "x", "a", 5, STRANDED(5));
      CacheOk(s) && !CacheOk(s') && Real(s', "x") == 5 && s'.rows["x"].used == 0
  {
    var s := Store(map["x" := Row(100, 0)], map["x" := map[]], 100);
    TotalSplit(UsedOf(s.rows), "x");
    assert UsedOf(s.rows) - {"x"} == map[];
    assert Judged(s, "x", "a", 5) == DONE;
    StepDrift(s, OpWrite("x", "a", 5, STRANDED(5)), "x");
  }

  /** A file of 10 bytes called a.tmp, then one byte written to a: 11 bytes are counted, one is there. */
  lemma TemporaryFileConsumed()
    ensures
      var s := Store(map["x" := Row(100, 10)], map["x" := map["a.tmp" := 10]], 100);
      var s' := AfterWrite(s, "x", "a", 1, NONE);
      CacheOk(s) && Drift(s, "x") == 0 && s'.rows["x"].used == 11 && Files(s', "x") == map["a" := 1] && Drift(s', "x") == 10
  {
    var files: map<Path, int> := map["a.tmp" := 10];
    var s := Store(map["x" := Row(100, 10)], map["x" := map["a.tmp" := 10]], 100);
    TotalSplit(files, "a.tmp");
    assert files - {"a.tmp"} == map[];
    TotalSplit(UsedOf(s.rows), "x");
    assert UsedOf(s.rows) - {"x"} == map[];
    assert Temporary("a") == "a.tmp";
    assert Judged(s, "x", "a", 1) == DONE;
    StepDrift(s, OpWrite("x", "a", 1, NONE), "x");
    assert Files(s, "x") - {"a.tmp"} == map[];
  }

  /** Remark, read off the definition that ReconcileQuota is proved to compute. */
  lemma ReconcileIsExact(s: Store, a: Agent)
    ensures Drift(AfterReconcile(s), a) == 0 && Files(AfterReconcile(s), a) == Files(s, a)
    ensures a in s.rows ==> AfterReconcile(s).rows[a].quota == s.rows[a].quota
  {
  }

  // ------------------------------------------------------------ the quotas hold

  ghost predicate WithinLimits(s: Store) {
    && (forall a :: a in s.rows ==> s.rows[a].used <= s.rows[a].quota)
    && CompanyUsed(s) <= s.companyQuota
  }

  /** The operation does not set a limit below what is used. */
  ghost predicate LeavesRoom(s: Store, op: Op) {
    && ((op.OpEnsure? || op.OpAgentLimit?) && op.agent in s.rows && op.mb >= 0 ==> s.rows[op.agent].used <= op.mb * MEGABYTE)
    && (op.OpCompanyLimit? && op.mb >= 0 ==> CompanyUsed(s) <= op.mb * MEGABYTE)
  }

  lemma StepStaysWithin(s: Store, op: Op)
    requires CacheOk(s) && WithinLimits(s) && LeavesRoom(s, op)
    ensures WithinLimits(Step(s, op))
  {
    var s' := Step(s, op);
    match op
    case OpReconcile =>
      forall a | a in s'.rows
        ensures s'.rows[a].used <= s.rows[a].used
      {
        assert s'.rows[a].used == Real(s, a);
      }
      TotalMonotone(UsedOf(s'.rows), UsedOf(s.rows));
    case OpCompanyLimit(mb) =>
    case OpWrite(a, p, size, fault) => WriteStaysWithin(s, a, p, size, fault);
    case OpRemove(a) =>
      RealIsNat(s, a);
      assert UsedOf(s'.rows) == UsedOf(s.rows) - {a};
      TotalRemove(UsedOf(s.rows), a);
    case _ =>
      var a := op.agent;
      RealIsNat(s, a);
      if a in s'.rows {
        OneRowWithin(s, s', a);
      }
  }

  lemma WriteStaysWithin(s: Store, a: Agent, p: Path, size: nat, fault: Fault)
    requires WithinLimits(s)
    ensures WithinLimits(AfterWrite(s, a, p, size, fault))
  {
    if Judged(s, a, p, size) == DONE && fault == NONE {
      OneRowWithin(s, AfterWrite(s, a, p, size, fault), a);
    }
  }

  /** Only a's row is new or changed, and what it adds still fits. */
  lemma OneRowWithin(s: Store, s': Store, a: Agent)
    requires WithinLimits(s) && s'.companyQuota == s.companyQuota
    requires a in s'.rows && s'.rows == s.rows[a := s'.rows[a]] && s'.rows[a].used <= s'.rows[a].quota
    requires
      var was := if a in s.rows then s.rows[a].used else 0;
      s'.rows[a].used <= was || CompanyUsed(s) - was + s'.rows[a].used <= s.companyQuota
    ensures WithinLimits(s')
  {
    assert UsedOf(s'.rows) == UsedOf(s.rows)[a := s'.rows[a].used];
    TotalUpdate(UsedOf(s.rows), a, s'.rows[a].used);
  }

  ghost predicate LeaveRoom(s: Store, ops: seq<Op>)
    decreases |ops|
  {
    ops == [] || (LeavesRoom(s, ops[0]) && LeaveRoom(Step(s, ops[0]), ops[1..]))
  }

  /**
   Over every run that sets no limit below what is used and leaves no bytes uncovered, the bytes really on
   disk stay within each agent's quota, and those of all agents together within the company's.
   */
  lemma {:induction false} RunStaysWithinQuota(s: Store, ops: seq<Op>)
    requires CacheOk(s) && WithinLimits(s) && LeaveRoom(s, ops) && AllCovered(s, ops)
    ensures
      var s' := Run(s, ops);
      && WithinLimits(s')
      && (forall a :: a in s'.rows ==> Real(s', a) <= s'.rows[a].quota)
      && Total(map a | a in s'.disk :: Real(s', a)) <= s'.companyQuota
    decreases |ops|
  {
    if ops == [] {
      TotalMonotone(map a | a in s.disk :: Real(s, a), UsedOf(s.rows));
    } else {
      StepKeepsCacheIff(s, ops[0]);
      StepStaysWithin(s, ops[0]);
      RunStaysWithinQuota(Step(s, ops[0]), ops[1..]);
    }
  }

  // ------------------------------------------------------------ what is announced

  /** A write takes an agent from below 90% of its quota to 90% or more. */
  predicate CrossesWarning(quota: nat, was: int, now: int) {
    quota > 0 && 10 * was < 9 * quota && 10 * now >= 9 * quota
  }

  ghost function WriteEvents(s: Store, a: Agent, p: Path, size: nat, fault: Fault): seq<Event> {
    var verdict := Judged(s, a, p, size);
    if verdict == NOT_INITIALIZED then []
    else
      var wouldUse := s.rows[a].used - SizeOf(s, a, p) + size;
      if verdict == AGENT_QUOTA then [AgentQuotaExceeded(a, s.rows[a].quota, wouldUse)]
      else if verdict == COMPANY_QUOTA then [CompanyQuotaExceeded(s.companyQuota, CompanyUsed(s) - SizeOf(s, a, p) + size)]
      else if fault == NONE && CrossesWarning(s.rows[a].quota, s.rows[a].used, wouldUse) then
        [QuotaWarning(a, wouldUse, s.rows[a].quota)]
      else []
  }

  /** The rows with those of done corrected. */
  ghost function Corrected(s: Store, done: set<Agent>): map<Agent, Row> {
    map a | a in s.rows :: if a in done then s.rows[a].(used := Real(s, a)) else s.rows[a]
  }

  /** What is reported of the rows done: by how much each that is off is to change. */
  ghost function DriftsAmong(s: Store, done: set<Agent>): map<Agent, int> {
    map a | a in done && Drift(s, a) != 0 :: -Drift(s, a)
  }

  lemma OneMore(s: Store, done: set<Agent>, a: Agent)
    requires a in s.rows && a !in done && done <= s.rows.Keys
    ensures Corrected(s, done)[a] == s.rows[a]
    ensures Corrected(s, done + {a}) ==
            if Drift(s, a) != 0 then Corrected(s, done)[a := s.rows[a].(used := Real(s, a))] else Corrected(s, done)
    ensures a !in DriftsAmong(s, done)
    ensures DriftsAmong(s, done + {a}) ==
            if Drift(s, a) != 0 then DriftsAmong(s, done)[a := -Drift(s, a)] else DriftsAmong(s, done)
  {
  }

  /** order is the agents of drift, each once. */
  ghost predicate Lists(order: seq<Agent>, drift: map<Agent, int>) {
    NoDup(order) && Elems(order) == drift.Keys
  }

  lemma ListsOneMore(order: seq<Agent>, drift: map<Agent, int>, a: Agent, change: int)
    requires Lists(order, drift) && a !in drift
    ensures Lists(order + [a], drift[a := change])
  {
    assert a !in Elems(order);
    NoDupAppend(order, a);
  }

  lemma AllCorrected(s: Store)
    requires Shaped(s)
    ensures Corrected(s, s.rows.Keys) == AfterReconcile(s).rows && CacheOk(AfterReconcile(s))
  {
    StepKeepsShape(s, OpReconcile);
  }

  function DriftEvents(drift: map<Agent, int>, order: seq<Agent>): seq<Event> {
    if order == [] then []
    else
      var a := order[|order| - 1];
      DriftEvents(drift, order[..|order| - 1]) + [QuotaDrift(a, if a in drift then drift[a] else 0)]
  }

  // ------------------------------------------------------------ the workspace itself

  class Workspace {
    var rows: map<Agent, Row>
    var disk: map<Agent, map<Path, nat>>
    var companyQuota: nat
    var events: seq<Event>

    ghost function Contents(): Store
      reads this`rows, this`disk, this`companyQuota
    {
      Store(rows, disk, companyQuota)
    }

    ghost predicate Valid()
      reads this`rows, this`disk, this`companyQuota
    {
      Shaped(Contents())
    }

    constructor ()
      ensures Valid() && Contents() == Store(map[], map[], 0) && events == []
    {
      rows, disk, companyQuota, events := map[], map[], 0, [];
    }

    method CreateForAgent(a: Agent, quotaMb: int) returns (r: Outcome)
      requires Valid()
      modifies this`rows, this`disk
      ensures Valid() && Contents() == Create(old(Contents()), a, quotaMb)
      ensures r == DONE <==> quotaMb >= 0 && !BadId(a) && a !in old(rows)
    {
      StepKeepsShape(Contents(), OpCreate(a, quotaMb));
      if quotaMb < 0 || BadId(a) || a in rows {
        return INVALID;
      }
      rows := rows[a := Row(quotaMb * 1024 * 1024, 0)];
      if a !in disk {
        disk := disk[a := map[]];
      }
      r := DONE;
    }

    method EnsureForAgent(a: Agent, quotaMb: int) returns (r: Outcome)
      requires Valid()
      modifies this`rows, this`disk
      ensures Valid() && Contents() == Ensure(old(Contents()), a, quotaMb)
      ensures r == DONE <==> quotaMb >= 0 && !BadId(a)
    {
      StepKeepsShape(Contents(), OpEnsure(a, quotaMb));
      if quotaMb < 0 || BadId(a) {
        return INVALID;
      }
      if a !in rows {
        rows := rows[a := Row(quotaMb * 1024 * 1024, 0)];
      } else {
        rows := rows[a := rows[a].(quota := quotaMb * 1024 * 1024)];
      }
      if a !in disk {
        disk := disk[a := map[]];
      }
      r := DONE;
    }

    method DeleteForAgent(a: Agent)
      requires Valid()
      modifies this`rows, this`disk
      ensures Valid() && Contents() == Remove(old(Contents()), a)
    {
      StepKeepsShape(Contents(), OpRemove(a));
      rows := rows - {a};
      disk := disk - {a};
    }

    /** The sum the database computes over the rows. */
    method SumUsed() returns (sum: int)
      ensures sum == CompanyUsed(Contents())
    {
      sum := 0;
      var todo := rows.Keys;
      ghost var left := UsedOf(rows);
      while todo != {}
        invariant left.Keys == todo && todo <= rows.Keys
        invariant forall a :: a in todo ==> left[a] == rows[a].used
        invariant sum + Total(left) == CompanyUsed(Contents())
        decreases todo
      {
        var a :| a in todo;
        TotalSplit(left, a);
        sum := sum + rows[a].used;
        todo, left := todo - {a}, left - {a};
      }
    }

    /** A write that would pass a quota is reported and refused; one that crosses 90% of the agent's is announced. */
    method Write(a: Agent, p: Path, size: nat, fault: Fault) returns (r: Outcome)
      requires Valid()
      modifies this`rows, this`disk, this`events
      ensures Valid() && Contents() == AfterWrite(old(Contents()), a, p, size, fault)
      ensures r == (
        var verdict := Judged(old(Contents()), a, p, size);
        if verdict == DONE && fault != NONE then IO_ERROR else verdict)
      ensures events == old(events) + WriteEvents(old(Contents()), a, p, size, fault)
    {
      ghost var s := Contents();
      StepKeepsShape(s, OpWrite(a, p, size, fault));
      if a !in disk || a !in rows {
        return NOT_INITIALIZED;
      }
      var agentQuota, agentUsed := rows[a].quota, rows[a].used;
      var companyUsed := SumUsed();
      var existingSize := if p in disk[a] then disk[a][p] else 0;
      var newAgentUsed, newCompanyUsed := agentUsed - existingSize + size, companyUsed - existingSize + size;
      var files: map<Path, nat> := disk[a] - {Temporary(p)};
      if newAgentUsed > agentQuota {
        events := events + [AgentQuotaExceeded(a, agentQuota, newAgentUsed)];
        return AGENT_QUOTA;
      }
      if newCompanyUsed > companyQuota {
        events := events + [CompanyQuotaExceeded(companyQuota, newCompanyUsed)];
        return COMPANY_QUOTA;
      }
      assert Judged(s, a, p, size) == DONE && files == Files(s, a) - {Temporary(p)};
      match fault {
        case BEFORE =>
          return IO_ERROR;
        case HALFWAY =>
          disk := disk[a := files];
          return IO_ERROR;
        case STRANDED(left) =>
          disk := disk[a := files[Temporary(p) := left]];
          return IO_ERROR;
        case UNRECORDED =>
          disk := disk[a := files[p := size]];
          return IO_ERROR;
        case NONE =>
      }
      disk := disk[a := files[p := size]];
      rows := rows[a := rows[a].(used := newAgentUsed)];
      assert disk == AfterWrite(s, a, p, size, fault).disk && rows == AfterWrite(s, a, p, size, fault).rows;
      if CrossesWarning(agentQuota, agentUsed, newAgentUsed) {
        events := events + [QuotaWarning(a, newAgentUsed, agentQuota)];
      }
      r := DONE;
    }

    method Delete(a: Agent, p: Path, recorded: bool) returns (r: Outcome)
      requires Valid()
      modifies this`rows, this`disk
      ensures Valid() && Contents() == AfterDelete(old(Contents()), a, p, recorded)
      ensures r == (
        if a !in old(disk) then NOT_INITIALIZED
        else if p !in old(disk)[a] then NOT_FOUND
        else if recorded then DONE else IO_ERROR)
    {
      StepKeepsShape(Contents(), OpDelete(a, p, recorded));
      if a !in disk {
        return NOT_INITIALIZED;
      }
      if p !in disk[a] {
        return NOT_FOUND;
      }
      var size := disk[a][p];
      var rest: map<Path, nat> := disk[a] - {p};
      disk := disk[a := rest];
      if !recorded {
        return IO_ERROR;
      }
      if a in rows {
        var left := rows[a].used - size;
        rows := rows[a := rows[a].(used := if left < 0 then 0 else left)];
      }
      r := DONE;
    }

    /** Adds up the files of one directory. */
    method DirSize(a: Agent) returns (total: int)
      ensures total == Real(Contents(), a)
    {
      total := 0;
      if a !in disk {
        return;
      }
      var todo := disk[a].Keys;
      ghost var left: map<Path, int> := disk[a];
      while todo != {}
        invariant left.Keys == todo && todo <= disk[a].Keys
        invariant forall p :: p in todo ==> left[p] == disk[a][p]
        invariant total + Total(left) == Real(Contents(), a)
        decreases todo
      {
        var p :| p in todo;
        TotalSplit(left, p);
        total := total + disk[a][p];
        todo, left := todo - {p}, left - {p};
      }
    }

    /** Corrects and reports, in some order, every row that differs from the disk. */
    method ReconcileQuota() returns (drift: map<Agent, int>, ghost order: seq<Agent>)
      requires Valid()
      modifies this`rows, this`events
      ensures Valid() && Contents() == AfterReconcile(old(Contents()))
      ensures drift == DriftsAmong(old(Contents()), old(rows).Keys)
      ensures Lists(order, drift) && events == old(events) + DriftEvents(drift, order)
    {
      ghost var s := Contents();
      var found;
      drift, found := FixRows();
      AllCorrected(s);
      Announce(drift, found);
      order := found;
    }

    method FixRows() returns (drift: map<Agent, int>, found: seq<Agent>)
      modifies this`rows
      ensures rows == Corrected(old(Contents()), old(rows).Keys)
      ensures drift == DriftsAmong(old(Contents()), old(rows).Keys) && Lists(found, drift)
    {
      ghost var s := Contents();
      drift, found := map[], [];
      var todo := rows.Keys;
      ghost var done := {};
      while todo != {}
        invariant done !! todo && done + todo == s.rows.Keys
        invariant Lists(found, drift)
        invariant rows == Corrected(s, done)
        invariant drift == DriftsAmong(s, done)
        decreases todo
      {
        var a :| a in todo;
        OneMore(s, done, a);
        var change := FixRow(a);
        if change != 0 {
          ListsOneMore(found, drift, a, change);
          drift, found := drift[a := change], found + [a];
        }
        todo, done := todo - {a}, done + {a};
      }
      assert done == s.rows.Keys;
    }

    method FixRow(a: Agent) returns (change: int)
      requires a in rows
      modifies this`rows
      ensures change == -Drift(old(Contents()), a)
      ensures rows == if change == 0 then old(rows) else old(rows)[a := old(rows)[a].(used := Real(old(Contents()), a))]
    {
      var cached := rows[a].used;
      var actual := DirSize(a);
      change := actual - cached;
      if cached != actual {
        rows := rows[a := rows[a].(used := actual)];
      }
    }

    method Announce(drift: map<Agent, int>, order: seq<Agent>)
      requires Lists(order, drift)
      modifies this`events
      ensures events == old(events) + DriftEvents(drift, order)
    {
      for i := 0 to |order|
        invariant events == old(events) + DriftEvents(drift, order[..i])
      {
        var a := order[i];
        assert a in Elems(order) && order[..i + 1][..i] == order[..i];
        ConcatSnoc(old(events), DriftEvents(drift, order[..i]), QuotaDrift(a, drift[a]));
        events := events + [QuotaDrift(a, drift[a])];
      }
      assert order[..|order|] == order;
    }

    method SetAgentLimit(a: Agent, mb: int) returns (r: Outcome)
      requires Valid()
      modifies this`rows
      ensures Valid() && Contents() == AfterAgentLimit(old(Contents()), a, mb)
      ensures r == if mb < 0 then INVALID else if a !in old(rows) then NOT_INITIALIZED else DONE
    {
      StepKeepsShape(Contents(), OpAgentLimit(a, mb));
      if mb < 0 {
        return INVALID;
      }
      if a !in rows {
        return NOT_INITIALIZED;
      }
      rows := rows[a := rows[a].(quota := mb * 1024 * 1024)];
      r := DONE;
    }

    method SetCompanyLimit(mb: int) returns (r: Outcome)
      requires Valid()
      modifies this`companyQuota
      ensures Valid() && Contents() == AfterCompanyLimit(old(Contents()), mb)
      ensures r == if mb < 0 then INVALID else DONE
    {
      StepKeepsShape(Contents(), OpCompanyLimit(mb));
      if mb < 0 {
        return INVALID;
      }
      companyQuota := mb * 1024 * 1024;
      r := DONE;
    }
  }
}
