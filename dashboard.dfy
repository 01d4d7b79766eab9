/** The internal dashboard of src/views/InternalLayout.jsx: what each staff role sees of the
    store, the counters above it, and which actions a row of the visits table offers. */
module Dashboard {
  import opened VisitModel
  import opened Codes
  import opened Store

  // ---------------------------------------------------------------------------------------
  // Role scope

  /** Whether a record is in the role's view: a host sees the visits of host `h1`, reception
      the visits dated 2025-11-26, every other role everything. */
  predicate InScope(role: Role, v: Visit) {
    match role
    case Host => v.hostId == "h1"
    case Reception => v.date == "2025-11-26"
    case _ => true
  }

  /** `filteredVisits` (src/views/InternalLayout.jsx:14-18), in store order. */
  function FilteredVisits(role: Role, vs: seq<Visit>): (r: seq<Visit>)
    ensures forall v :: v in r <==> v in vs && InScope(role, v)
    ensures multiset(r) <= multiset(vs)
    ensures role != Host && role != Reception ==> r == vs
  {
    Filter(vs, (v: Visit) => InScope(role, v))
  }

  /** The role's view keeps store order: the view of a concatenation is the concatenation of
      the views, and a single record is in it exactly when it is in scope. */
  lemma FilteredVisitsKeepStoreOrder(role: Role, a: seq<Visit>, b: seq<Visit>, v: Visit)
    ensures FilteredVisits(role, a + b) == FilteredVisits(role, a) + FilteredVisits(role, b)
    ensures FilteredVisits(role, [v]) == if InScope(role, v) then [v] else []
  {
    FilterKeepsOrder(a, b, (v: Visit) => InScope(role, v));
    FilterOne(v, (v: Visit) => InScope(role, v));
  }

  // ---------------------------------------------------------------------------------------
  // Counters

  /** `list.filter(p).length`. */
  function CountWhere(vs: seq<Visit>, p: Visit -> bool): (n: nat)
    ensures n <= |vs|
    ensures n == 0 <==> forall i :: 0 <= i < |vs| ==> !p(vs[i])
    ensures n == |vs| <==> forall i :: 0 <= i < |vs| ==> p(vs[i])
  {
    if vs == [] then 0
    else (if p(vs[0]) then 1 else 0) + CountWhere(vs[1..], p)
  }

  /** The count is additive and counts a single record exactly when it matches, so it is the
      number of matching records. */
  lemma {:induction false} CountWhereAdds(a: seq<Visit>, b: seq<Visit>, p: Visit -> bool, v: Visit)
    ensures CountWhere(a + b, p) == CountWhere(a, p) + CountWhere(b, p)
    ensures CountWhere([v], p) == if p(v) then 1 else 0
  {
    if a != [] {
      assert (a + b)[0] == a[0];
      assert (a + b)[1..] == a[1..] + b;
      CountWhereAdds(a[1..], b, p, v);
    } else {
      assert a + b == b;
    }
    assert [v][1..] == [];
  }

  function CountStatus(vs: seq<Visit>, s: Status): nat {
    CountWhere(vs, (v: Visit) => v.status == s)
  }

  /** Every record has exactly one status, so the five status counts add up to the length. */
  lemma {:induction false} StatusCountsPartition(vs: seq<Visit>)
    ensures CountStatus(vs, Pending) + CountStatus(vs, Approved) + CountStatus(vs, Rejected) +
            CountStatus(vs, CheckedIn) + CountStatus(vs, CheckedOut) == |vs|
  {
    if vs != [] {
      StatusCountsPartition(vs[1..]);
    }
  }

  datatype Counters = Counters(total: nat, pending: nat, onsite: nat)

  /** `stats` (src/views/InternalLayout.jsx:27-31): counted over the role's view. */
  function DashboardCounters(role: Role, vs: seq<Visit>): (c: Counters)
    ensures c.total == |FilteredVisits(role, vs)|
    ensures c.pending == CountStatus(FilteredVisits(role, vs), Pending)
    ensures c.onsite == CountStatus(FilteredVisits(role, vs), CheckedIn)
    ensures c.pending + c.onsite <= c.total
    ensures c.pending == 0 <==> forall v :: v in vs && InScope(role, v) ==> v.status != Pending
  {
    var fv := FilteredVisits(role, vs);
    StatusCountsPartition(fv);
    Counters(|fv|, CountStatus(fv, Pending), CountStatus(fv, CheckedIn))
  }

  datatype Risk = Risk(expiring: nat, reused: nat)

  /** A pending request whose date lies before `now`. `dateInstant` stands for
      `new Date(v.date).getTime()`, with `None` for an unparseable date (NaN compares false). */
  predicate Overdue(v: Visit, now: int, dateInstant: string -> Option<int>)
    ensures Overdue(v, now, dateInstant) ==> v.status == Pending
    ensures dateInstant(v.date).None? ==> !Overdue(v, now, dateInstant)
    ensures v.status == Pending && dateInstant(v.date).Some? ==>
              (Overdue(v, now, dateInstant) <==> dateInstant(v.date).value < now)
  {
    v.status == Pending && dateInstant(v.date).Some? && dateInstant(v.date).value < now
  }

  /** `usesRemaining === 0`: neither an absent counter nor NaN qualifies. */
  predicate Exhausted(v: Visit)
    ensures Exhausted(v) <==> v.usesRemaining.Count? && v.usesRemaining.n == 0
    ensures v.usesRemaining == Missing || v.usesRemaining == NotANumber ==> !Exhausted(v)
  {
    v.usesRemaining == Count(0)
  }

  /** `riskStats` (src/views/InternalLayout.jsx:20-25): counted over the whole store, not over
      the role's view. */
  function RiskStats(vs: seq<Visit>, now: int, dateInstant: string -> Option<int>): (r: Risk)
    ensures r.expiring == CountWhere(vs, (v: Visit) => Overdue(v, now, dateInstant))
    ensures r.reused == CountWhere(vs, Exhausted)
    ensures r.expiring <= CountStatus(vs, Pending)
    ensures r.reused == 0 <==> forall i :: 0 <= i < |vs| ==> !Exhausted(vs[i])
  {
    var r := Risk(CountWhere(vs, (v: Visit) => Overdue(v, now, dateInstant)), CountWhere(vs, Exhausted));
    OverdueWithinPending(vs, now, dateInstant);
    r
  }

  lemma {:induction false} OverdueWithinPending(vs: seq<Visit>, now: int, dateInstant: string -> Option<int>)
    ensures CountWhere(vs, (v: Visit) => Overdue(v, now, dateInstant)) <= CountStatus(vs, Pending)
  {
    if vs != [] {
      OverdueWithinPending(vs[1..], now, dateInstant);
    }
  }

  /** The risk counter a host sees includes requests outside the host's own view. */
  lemma RiskSeesBeyondScope(v: Visit, now: int, dateInstant: string -> Option<int>)
    requires v.hostId != "h1" && Overdue(v, now, dateInstant)
    ensures FilteredVisits(Host, [v]) == []
    ensures RiskStats([v], now, dateInstant).expiring == 1
  {
  }

  /** The "reuse attempts" counter counts a credential whose last use was consumed normally:
      a visit with one use left is counted after one kiosk check-in, with no reuse attempted. */
  lemma ReusedCountsLastLegitimateUse(v: Visit, now: int, dateInstant: string -> Option<int>)
    requires v.usesRemaining == Count(1)
    ensures RiskStats([v], now, dateInstant).reused == 0
    ensures RiskStats(DecrementAll([v], v.id), now, dateInstant).reused == 1
  {
    var after := DecrementAll([v], v.id);
    assert after[0].usesRemaining == Count(0);
  }

  /** A walk-in's counter becomes NaN after its check-in, and NaN is never counted as reused. */
  lemma NaNNeverCountsAsReused(v: Visit, now: int, dateInstant: string -> Option<int>)
    requires v.usesRemaining == Missing
    ensures RiskStats(DecrementAll([v], v.id), now, dateInstant).reused == 0
  {
    var after := DecrementAll([v], v.id);
    assert after[0].usesRemaining == NotANumber;
  }

  // ---------------------------------------------------------------------------------------
  // Row actions of the visits table

  datatype Action = Approve | Reject | CheckInHint | Pdf

  /** The action buttons of a row (src/views/InternalLayout.jsx:213-225). */
  function RowActions(role: Role, v: Visit): (acts: set<Action>)
    ensures Approve in acts <==> v.status == Pending
    ensures Reject in acts <==> v.status == Pending
    ensures CheckInHint in acts <==> v.status == Approved && role == Reception
    ensures Pdf in acts <==> TruthyText(v.docImage) || TruthyText(v.signatureData)
    ensures Approve in acts ==> CheckInHint !in acts
  {
    (if v.status == Pending then {Approve, Reject} else {}) +
    (if v.status == Approved && role == Reception then {CheckInHint} else {}) +
    (if TruthyText(v.docImage) || TruthyText(v.signatureData) then {Pdf} else {})
  }

  /** Approve and reject are offered exactly on pending rows, whatever the role. */
  lemma DecisionOfferedIffPending(role: Role, v: Visit)
    ensures Approve in RowActions(role, v) <==> v.status == Pending
    ensures Reject in RowActions(role, v) <==> v.status == Pending
  {
  }

  /** Once a row is approved from the table it offers no further decision; reception sees the
      check-in hint instead. */
  lemma ApprovedRowOffersNoDecision(role: Role, vs: seq<Visit>, id: string, codes: seq<string>, now: nat, i: nat)
    requires |codes| == |vs| && i < |vs| && vs[i].id == id
    ensures Approve !in RowActions(role, SetStatusAll(vs, id, Approved, codes, now)[i])
    ensures Reject !in RowActions(role, SetStatusAll(vs, id, Approved, codes, now)[i])
    ensures CheckInHint in RowActions(role, SetStatusAll(vs, id, Approved, codes, now)[i]) <==> role == Reception
  {
  }

  /** The report action looks for `docImage` or `signatureData`; kiosk check-in stores the photos
      and the signature under `evidence`, so it never changes whether the action is offered. */
  lemma CheckInNeverEnablesPdf(role: Role, vs: seq<Visit>, id: string, ev: Evidence, now: nat, i: nat)
    requires i < |vs|
    ensures Pdf in RowActions(role, CheckInAll(vs, id, ev, now)[i]) <==> Pdf in RowActions(role, vs[i])
  {
  }

  /** No record the store starts with or a request creates carries the two fields the report
      action looks for. */
  lemma PdfNeverOfferedOnNewRecords(role: Role, data: PortalForm, now: nat)
    ensures forall k :: 0 <= k < |InitialVisits()| ==> Pdf !in RowActions(role, InitialVisits()[k])
    ensures Pdf !in RowActions(role, RequestedVisit(data, now))
  {
    var init := InitialVisits();
    assert init[0].docImage == None && init[0].signatureData == None;
    assert init[1].docImage == None && init[1].signatureData == None;
  }

  /** No store operation gives a record the two fields the report action looks for: together
      with `PdfNeverOfferedOnNewRecords`, the action is never offered. */
  lemma PdfNeverOffered(role: Role, vs: seq<Visit>, id: string, codes: seq<string>, ev: Evidence,
                        guardian: string, result: string, observation: string, now: nat, i: nat)
    requires |codes| == |vs| && i < |vs|
    requires forall k :: 0 <= k < |codes| ==> IsSixDigitCode(codes[k])
    requires Pdf !in RowActions(role, vs[i])
    ensures Pdf !in RowActions(role, SeedAll(vs, codes, now)[i])
    ensures Pdf !in RowActions(role, RotateAll(vs, codes, now)[i])
    ensures forall s :: Pdf !in RowActions(role, SetStatusAll(vs, id, s, codes, now)[i])
    ensures Pdf !in RowActions(role, CheckInAll(vs, id, ev, now)[i])
    ensures Pdf !in RowActions(role, DecrementAll(vs, id)[i])
    ensures Pdf !in RowActions(role, AuthorizeExitAll(vs, id, guardian, now)[i])
    ensures Pdf !in RowActions(role, CheckOutAll(vs, id, now)[i])
    ensures Pdf !in RowActions(role, JudicialAll(vs, id, result, observation, now)[i])
  {
    RotationTouchesOnlyCode(vs, codes, now, i);
  }

  // ---------------------------------------------------------------------------------------
  // Recent activity and panels

  /** `logs.slice(0, 6)` (src/views/InternalLayout.jsx:118): the six newest entries. */
  function RecentLogs(logs: seq<LogEntry>): (r: seq<LogEntry>)
    ensures |r| == (if |logs| < 6 then |logs| else 6) && r <= logs
    ensures |logs| <= 6 ==> r == logs
  {
    logs[..if |logs| < 6 then |logs| else 6]
  }

  /** The entry an operation just logged (logs are kept newest first) heads the recent list,
      and the oldest of the six shown drops off. */
  lemma NewestLogShownFirst(e: LogEntry, logs: seq<LogEntry>)
    ensures RecentLogs([e] + logs) ==
            [e] + RecentLogs(logs)[..if |RecentLogs(logs)| < 5 then |RecentLogs(logs)| else 5]
  {
    var k := if |logs| < 5 then |logs| else 5;
    assert RecentLogs(logs)[..k] == logs[..k];
    assert ([e] + logs)[..k + 1] == [e] + logs[..k];
  }

  datatype Tab = DashboardTab | VisitsTab | LogsTab | ConfigTab
  datatype Panel = Overview | VisitsTable | AuditLog | Settings | Blank

  /** The sidebar entries (src/views/InternalLayout.jsx:50-57). */
  function SidebarTabs(role: Role): (tabs: set<Tab>)
    ensures DashboardTab in tabs && VisitsTab in tabs
    ensures LogsTab in tabs <==> role == Admin
    ensures ConfigTab in tabs <==> role == Admin
  {
    {DashboardTab, VisitsTab} + (if role == Admin then {LogsTab, ConfigTab} else {})
  }

  /** The panel rendered for the active tab (src/views/InternalLayout.jsx:104, 164, 236, 263):
      the audit log also checks the role, the settings panel does not. */
  function PanelFor(role: Role, tab: Tab): (p: Panel)
    ensures p == Blank <==> tab == LogsTab && role != Admin
    ensures p == AuditLog <==> tab == LogsTab && role == Admin
    ensures p == Settings <==> tab == ConfigTab
  {
    match tab
    case DashboardTab => Overview
    case VisitsTab => VisitsTable
    case LogsTab => if role == Admin then AuditLog else Blank
    case ConfigTab => Settings
  }

  /** A role that only selects tabs from its own sidebar reaches the audit log and the settings
      only if it is the administrator. */
  lemma OnlyAdminReachesAuditAndSettings(role: Role, tab: Tab)
    requires tab in SidebarTabs(role)
    ensures PanelFor(role, tab) == AuditLog || PanelFor(role, tab) == Settings ==> role == Admin
    ensures role == Admin ==> PanelFor(role, tab) != Blank
  {
  }
}
