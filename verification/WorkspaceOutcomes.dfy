/** What each operation leaves on disk and in its row, in plain bytes (modules/storage/workspace.py, quota.py). */
module WorkspaceOutcomes {
  import opened Common
  import opened Workspaces

  /** The bytes counted for all agents together. */
  ghost function Counted(s: Store): int {
    Total(map a | a in s.rows :: s.rows[a].used)
  }

  /** How large the file is, nothing if it is not there. */
  function Size(s: Store, a: Agent, p: Path): nat {
    if a in s.disk && p in s.disk[a] then s.disk[a][p] else 0
  }

  /** What would be counted with the file replaced by one of that size fits both quotas. */
  ghost predicate Fits(s: Store, a: Agent, p: Path, size: nat) {
    && a in s.disk && a in s.rows
    && s.rows[a].used - Size(s, a, p) + size <= s.rows[a].quota
    && Counted(s) - Size(s, a, p) + size <= s.companyQuota
  }

  /** A write is let through iff its result fits both quotas, the size of the replaced file deducted; a refusal names one it does not fit. */
  lemma LetThroughIff(s: Store, a: Agent, p: Path, size: nat)
    ensures Judged(s, a, p, size) == DONE <==> Fits(s, a, p, size)
    ensures Judged(s, a, p, size) == NOT_INITIALIZED <==> a !in s.disk || a !in s.rows
    ensures Judged(s, a, p, size) == AGENT_QUOTA ==> a in s.rows && s.rows[a].used - Size(s, a, p) + size > s.rows[a].quota
    ensures Judged(s, a, p, size) == COMPANY_QUOTA ==> Counted(s) - Size(s, a, p) + size > s.companyQuota
    ensures Judged(s, a, p, size) in {DONE, NOT_INITIALIZED, AGENT_QUOTA, COMPANY_QUOTA}
  {
    assert UsedOf(s.rows) == map a | a in s.rows :: s.rows[a].used;
  }

  /** No other agent's row or file is touched, nor the company's quota. */
  ghost predicate OnlyOf(s: Store, s': Store, a: Agent) {
    && s'.companyQuota == s.companyQuota
    && s'.rows.Keys - {a} == s.rows.Keys - {a} && s'.disk.Keys - {a} == s.disk.Keys - {a}
    && (forall b :: b != a && b in s.rows && b in s'.rows ==> s'.rows[b] == s.rows[b])
    && (forall b :: b != a && b in s.disk && b in s'.disk ==> s'.disk[b] == s.disk[b])
  }

  /**
   A write that goes through leaves the file with its new size, the temporary one beside it gone, and every other
   file alone; the row counts the difference. A write that is refused or fails before it starts changes nothing.
   */
  lemma WrittenIs(s: Store, a: Agent, p: Path, size: nat)
    ensures
      var s' := AfterWrite(s, a, p, size, NONE);
      if !Fits(s, a, p, size) then s' == s
      else
        && OnlyOf(s, s', a) && a in s'.disk && a in s'.rows
        && s'.rows[a] == s.rows[a].(used := s.rows[a].used - Size(s, a, p) + size)
        && p in s'.disk[a] && s'.disk[a][p] == size && p + ".tmp" !in s'.disk[a]
        && (forall q :: q != p && q != p + ".tmp" ==> (q in s'.disk[a] <==> q in s.disk[a]))
        && (forall q :: q != p && q in s.disk[a] && q in s'.disk[a] ==> s'.disk[a][q] == s.disk[a][q])
    ensures AfterWrite(s, a, p, size, BEFORE) == s
  {
    LetThroughIff(s, a, p, size);
    TemporaryDiffers(p);
  }

  /** A write that fails half way leaves the file as it was and the row alone; the temporary file is gone, or as large as is left. */
  lemma FailedWriteIs(s: Store, a: Agent, p: Path, size: nat, left: nat)
    requires Fits(s, a, p, size)
    ensures
      var gone, stranded := AfterWrite(s, a, p, size, HALFWAY), AfterWrite(s, a, p, size, STRANDED(left));
      && OnlyOf(s, gone, a) && OnlyOf(s, stranded, a) && gone.rows == s.rows && stranded.rows == s.rows
      && gone.disk == s.disk[a := s.disk[a] - {p + ".tmp"}]
      && stranded.disk == s.disk[a := (s.disk[a] - {p + ".tmp"})[p + ".tmp" := left]]
    ensures
      var unrecorded := AfterWrite(s, a, p, size, UNRECORDED);
      unrecorded.rows == s.rows && unrecorded.disk == AfterWrite(s, a, p, size, NONE).disk && unrecorded.companyQuota == s.companyQuota
  {
    LetThroughIff(s, a, p, size);
    var rest: map<Path, nat> := s.disk[a] - {p + ".tmp"};
    assert Files(s, a) - {Temporary(p)} == rest;
  }

  /** Crossing nine tenths of a quota upwards is announced, and so is each refusal with what it would have come to. */
  lemma WriteAnnounces(s: Store, a: Agent, p: Path, size: nat, fault: Fault)
    ensures
      var would := if a in s.rows then s.rows[a].used - Size(s, a, p) + size else 0;
      WriteEvents(s, a, p, size, fault) ==
        if a !in s.disk || a !in s.rows then []
        else if would > s.rows[a].quota then [AgentQuotaExceeded(a, s.rows[a].quota, would)]
        else if Counted(s) - Size(s, a, p) + size > s.companyQuota then
          [CompanyQuotaExceeded(s.companyQuota, Counted(s) - Size(s, a, p) + size)]
        else if fault == NONE && s.rows[a].quota > 0 && 10 * s.rows[a].used < 9 * s.rows[a].quota <= 10 * would then
          [QuotaWarning(a, would, s.rows[a].quota)]
        else []
  {
    assert UsedOf(s.rows) == map a | a in s.rows :: s.rows[a].used;
  }

  /** A deletion takes the file and, where it is recorded, its size off the row, down to nothing at most. */
  lemma DeletedIs(s: Store, a: Agent, p: Path, recorded: bool)
    ensures
      var s', size := AfterDelete(s, a, p, recorded), Size(s, a, p);
      if a !in s.disk || p !in s.disk[a] then s' == s
      else
        && OnlyOf(s, s', a) && s'.disk == s.disk[a := s.disk[a] - {p}]
        && (if recorded && a in s.rows
            then s'.rows == s.rows[a := Row(s.rows[a].quota, if s.rows[a].used >= size then s.rows[a].used - size else 0)]
            else s'.rows == s.rows)
  {
  }

  /** An id that could lead out of the directory of workspaces, or none at all, is refused. */
  predicate Unsafe(a: Agent) {
    a in {"", ".", ".."} || '/' in a || '\\' in a
  }

  /** A new workspace starts empty, with its quota in megabytes; one that exists keeps what it holds and counts. */
  lemma ProvisionedIs(s: Store, a: Agent, mb: int)
    ensures
      var created, ensured := Create(s, a, mb), Ensure(s, a, mb);
      && (if mb < 0 || Unsafe(a) || a in s.rows then created == s
          else OnlyOf(s, created, a) && created.rows == s.rows[a := Row(mb * 1048576, 0)] && a in created.disk
               && created.disk[a] == if a in s.disk then s.disk[a] else map[])
      && (if mb < 0 || Unsafe(a) then ensured == s
          else OnlyOf(s, ensured, a) && ensured.rows == s.rows[a := Row(mb * 1048576, if a in s.rows then s.rows[a].used else 0)]
               && a in ensured.disk && ensured.disk[a] == if a in s.disk then s.disk[a] else map[])
  {
  }

  /** Removing a workspace takes its row and its files; limits change quotas and nothing else. */
  lemma RemovedAndLimited(s: Store, a: Agent, mb: int)
    ensures OnlyOf(s, Remove(s, a), a) && a !in Remove(s, a).rows && a !in Remove(s, a).disk
    ensures AfterAgentLimit(s, a, mb) == if mb >= 0 && a in s.rows then s.(rows := s.rows[a := Row(mb * 1048576, s.rows[a].used)]) else s
    ensures AfterCompanyLimit(s, mb) == if mb >= 0 then s.(companyQuota := mb * 1048576) else s
  {
  }

  /** Reconciling counts in every row what its directory really holds, and reports exactly the rows that were off, by how much. */
  lemma ReconciledIs(s: Store, a: Agent)
    requires a in s.rows
    ensures
      var s', held := AfterReconcile(s), Total(if a in s.disk then s.disk[a] else map[]);
      && s'.disk == s.disk && s'.companyQuota == s.companyQuota && s'.rows.Keys == s.rows.Keys
      && s'.rows[a] == Row(s.rows[a].quota, held)
      && var drift := DriftsAmong(s, s.rows.Keys);
      && (a in drift <==> held != s.rows[a].used) && (a in drift ==> drift[a] == held - s.rows[a].used)
  {
  }

  /** Each reported row is announced once, with its change. */
  lemma {:induction false} DriftIsAnnounced(drift: map<Agent, int>, order: seq<Agent>, k: nat)
    requires Lists(order, drift) && k < |order|
    ensures |DriftEvents(drift, order)| == |order| && order[k] in drift
    ensures DriftEvents(drift, order)[k] == QuotaDrift(order[k], drift[order[k]])
  {
    assert order[k] in Elems(order);
    EventsOf(drift, order, k);
  }

  lemma {:induction false} EventsOf(drift: map<Agent, int>, order: seq<Agent>, k: nat)
    requires k < |order| && order[k] in drift
    ensures |DriftEvents(drift, order)| == |order|
    ensures DriftEvents(drift, order)[k] == QuotaDrift(order[k], drift[order[k]])
  {
    EventsCount(drift, order);
    if k < |order| - 1 {
      EventsOf(drift, order[..|order| - 1], k);
    } else {
      EventsCount(drift, order[..|order| - 1]);
    }
  }

  lemma {:induction false} EventsCount(drift: map<Agent, int>, order: seq<Agent>)
    ensures |DriftEvents(drift, order)| == |order|
  {
    if order != [] {
      EventsCount(drift, order[..|order| - 1]);
    }
  }
}
