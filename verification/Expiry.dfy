/** Lapsing what nobody answered in time, one organization after another, in sessions that commit or roll back. */
module Expiry {
  import opened Lifecycle
  import opened Rows

  /** A workflow run, or one step of one: whether it waits on a person is all the sweep asks of it. */
  datatype WorkStatus = AwaitsApproval | HasFailed | Otherwise(name: string)

  datatype WorkRow = WorkRow(org: Id, status: WorkStatus, errorCode: Option<string>)

  type Works = map<Id, WorkRow>

  datatype Tables = Tables(
    approvals: Approvals, runs: Runs, workflowRuns: Works, stepRuns: Works, executions: Executions)

  // -- One organization --------------------------------------------------------------------

  function FailWorks(works: Works, org: Id, ids: set<Id>): Works {
    map w | w in works ::
      if w in ids && works[w].org == org && works[w].status == AwaitsApproval
      then works[w].(status := HasFailed, errorCode := Some(EXPIRED_ERROR_CODE))
      else works[w]
  }

  /** Which column of an approval names the work it holds up. */
  datatype Link = ToWorkflow | ToStep

  function Linked(a: Approval, link: Link): Option<Id> {
    match link
    case ToWorkflow => a.workflowRunId
    case ToStep => a.stepRunId
  }

  function HeldWorks(rows: Approvals, org: Id, now: Instant, link: Link): set<Id> {
    set id | id in LapsedIds(rows, org, now) && Linked(rows[id], link).Some? :: Linked(rows[id], link).value
  }

  /** `expire_due`: the approvals, and every process they were holding up, in one commit. */
  function ExpireOrg(t: Tables, org: Id, now: Instant): Tables {
    t.(approvals := ExpireRows(t.approvals, org, now),
       runs := FailAgentRuns(t.runs, org, HeldRuns(t.approvals, org, now)),
       workflowRuns := FailWorks(t.workflowRuns, org, HeldWorks(t.approvals, org, now, ToWorkflow)),
       stepRuns := FailWorks(t.stepRuns, org, HeldWorks(t.approvals, org, now, ToStep)))
  }

  /** The loop over organizations: each transaction takes an instant of its own. */
  function SweepAll(t: Tables, orgs: seq<Id>, clock: Id -> Instant): Tables {
    if orgs == [] then t
    else ExpireOrg(SweepAll(t, orgs[..|orgs| - 1], clock), orgs[|orgs| - 1], clock(orgs[|orgs| - 1]))
  }

  /** How many approvals the loop reports. */
  function SweepCount(t: Tables, orgs: seq<Id>, clock: Id -> Instant): nat {
    if orgs == [] then 0
    else
      var last := orgs[|orgs| - 1];
      SweepCount(t, orgs[..|orgs| - 1], clock)
      + |LapsedIds(SweepAll(t, orgs[..|orgs| - 1], clock).approvals, last, clock(last))|
  }

  // -- One filter over the whole deployment ---------------------------------------------------

  predicate Falls(a: Approval, orgs: set<Id>, clock: Id -> Instant) {
    a.org in orgs && a.status == ApprovalStatus.Pending && a.expiresAt.Some? && a.expiresAt.value <= clock(a.org)
  }

  function FallenIds(rows: Approvals, orgs: set<Id>, clock: Id -> Instant): set<Id> {
    set id | id in rows && Falls(rows[id], orgs, clock)
  }

  predicate HoldsRun(rows: Approvals, orgs: set<Id>, clock: Id -> Instant, r: Id, org: Id) {
    exists id :: id in rows && Falls(rows[id], orgs, clock) && rows[id].runId == Some(r) && rows[id].org == org
  }

  predicate HoldsWork(rows: Approvals, orgs: set<Id>, clock: Id -> Instant, link: Link, w: Id, org: Id) {
    exists id ::
      && id in rows && Falls(rows[id], orgs, clock) && rows[id].org == org
      && (match link case ToWorkflow => rows[id].workflowRunId case ToStep => rows[id].stepRunId) == Some(w)
  }

  function FailedRun(row: RunRow): RunRow {
    if row.status == AwaitingApproval then row.(status := AgentRunStatus.Failed, errorCode := Some("approval_expired")) else row
  }

  function FailedWork(row: WorkRow): WorkRow {
    if row.status == AwaitsApproval then row.(status := HasFailed, errorCode := Some("approval_expired")) else row
  }

  ghost predicate SweptApprovals(rows: Approvals, rows': Approvals, orgs: set<Id>, clock: Id -> Instant) {
    && rows'.Keys == rows.Keys
    && forall id | id in rows ::
         rows'[id] == if Falls(rows[id], orgs, clock) then rows[id].(status := Expired) else rows[id]
  }

  ghost predicate SweptRuns(rows: Approvals, runs: Runs, runs': Runs, orgs: set<Id>, clock: Id -> Instant) {
    && runs'.Keys == runs.Keys
    && forall r | r in runs ::
         runs'[r] == if HoldsRun(rows, orgs, clock, r, runs[r].org) then FailedRun(runs[r]) else runs[r]
  }

  ghost predicate SweptWorks(rows: Approvals, works: Works, works': Works, orgs: set<Id>, clock: Id -> Instant, link: Link) {
    && works'.Keys == works.Keys
    && forall w | w in works ::
         works'[w] == if HoldsWork(rows, orgs, clock, link, w, works[w].org) then FailedWork(works[w]) else works[w]
  }

  /**
   What the sweep of `orgs` should come to: the overdue pending approvals of those organizations
   lapse and nothing else does; what waited behind one of them, in its own organization, fails;
   every other row is the row it was.
   */
  ghost predicate Swept(t: Tables, t': Tables, orgs: set<Id>, clock: Id -> Instant) {
    && t'.executions == t.executions
    && SweptApprovals(t.approvals, t'.approvals, orgs, clock)
    && SweptRuns(t.approvals, t.runs, t'.runs, orgs, clock)
    && SweptWorks(t.approvals, t.workflowRuns, t'.workflowRuns, orgs, clock, ToWorkflow)
    && SweptWorks(t.approvals, t.stepRuns, t'.stepRuns, orgs, clock, ToStep)
  }

  function Ids(orgs: seq<Id>): set<Id> {
    set org | org in orgs
  }

  predicate Distinct(orgs: seq<Id>) {
    forall i, j | 0 <= i < j < |orgs| :: orgs[i] != orgs[j]
  }

  lemma SameLapsing(rows: Approvals, rows': Approvals, orgs: set<Id>, clock: Id -> Instant, org: Id)
    requires SweptApprovals(rows, rows', orgs, clock) && org !in orgs
    ensures LapsedIds(rows', org, clock(org)) == LapsedIds(rows, org, clock(org))
    ensures forall id | id in LapsedIds(rows, org, clock(org)) :: rows'[id] == rows[id] && Falls(rows[id], orgs + {org}, clock)
  {
  }

  lemma OneMoreOfApprovals(rows: Approvals, rows': Approvals, orgs: set<Id>, clock: Id -> Instant, org: Id)
    requires SweptApprovals(rows, rows', orgs, clock) && org !in orgs
    ensures SweptApprovals(rows, ExpireRows(rows', org, clock(org)), orgs + {org}, clock)
  {
  }

  lemma OneMoreOfRuns(rows: Approvals, rows': Approvals, runs: Runs, runs': Runs, orgs: set<Id>, clock: Id -> Instant, org: Id)
    requires SweptApprovals(rows, rows', orgs, clock) && SweptRuns(rows, runs, runs', orgs, clock) && org !in orgs
    ensures SweptRuns(rows, runs, FailAgentRuns(runs', org, HeldRuns(rows', org, clock(org))), orgs + {org}, clock)
  {
    SameLapsing(rows, rows', orgs, clock, org);
    forall r | r in runs
      ensures HoldsRun(rows, orgs + {org}, clock, r, runs[r].org)
              <==> HoldsRun(rows, orgs, clock, r, runs[r].org)
                   || (runs[r].org == org && r in HeldRuns(rows', org, clock(org)))
    {
      var o := runs[r].org;
      if HoldsRun(rows, orgs + {org}, clock, r, o) {
        var id :| id in rows && Falls(rows[id], orgs + {org}, clock) && rows[id].runId == Some(r) && rows[id].org == o;
        assert o == org ==> id in LapsedIds(rows', org, clock(org)) && rows'[id].runId.value == r;
      }
      if o == org && r in HeldRuns(rows', org, clock(org)) {
        var id :| id in LapsedIds(rows', org, clock(org)) && rows'[id].runId.Some? && rows'[id].runId.value == r;
        assert Falls(rows[id], orgs + {org}, clock);
      }
    }
  }

  lemma OneMoreOfWorks(rows: Approvals, rows': Approvals, works: Works, works': Works,
                       orgs: set<Id>, clock: Id -> Instant, link: Link, org: Id)
    requires SweptApprovals(rows, rows', orgs, clock) && SweptWorks(rows, works, works', orgs, clock, link) && org !in orgs
    ensures SweptWorks(rows, works, FailWorks(works', org, HeldWorks(rows', org, clock(org), link)), orgs + {org}, clock, link)
  {
    SameLapsing(rows, rows', orgs, clock, org);
    forall w | w in works
      ensures HoldsWork(rows, orgs + {org}, clock, link, w, works[w].org)
              <==> HoldsWork(rows, orgs, clock, link, w, works[w].org)
                   || (works[w].org == org && w in HeldWorks(rows', org, clock(org), link))
    {
      var o := works[w].org;
      if HoldsWork(rows, orgs + {org}, clock, link, w, o) {
        var id :| id in rows && Falls(rows[id], orgs + {org}, clock) && Linked(rows[id], link) == Some(w) && rows[id].org == o;
        assert o == org ==> id in LapsedIds(rows', org, clock(org)) && Linked(rows'[id], link).value == w;
      }
      if o == org && w in HeldWorks(rows', org, clock(org), link) {
        var id :| id in LapsedIds(rows', org, clock(org)) && Linked(rows'[id], link).Some? && Linked(rows'[id], link).value == w;
        assert Falls(rows[id], orgs + {org}, clock);
      }
    }
  }

  lemma OneMoreOrg(t: Tables, t': Tables, orgs: set<Id>, clock: Id -> Instant, org: Id)
    requires Swept(t, t', orgs, clock) && org !in orgs
    ensures Swept(t, ExpireOrg(t', org, clock(org)), orgs + {org}, clock)
  {
    hide FailAgentRuns, FailWorks, ExpireRows, HeldRuns, HeldWorks;
    OneMoreOfApprovals(t.approvals, t'.approvals, orgs, clock, org);
    OneMoreOfRuns(t.approvals, t'.approvals, t.runs, t'.runs, orgs, clock, org);
    OneMoreOfWorks(t.approvals, t'.approvals, t.workflowRuns, t'.workflowRuns, orgs, clock, ToWorkflow, org);
    OneMoreOfWorks(t.approvals, t'.approvals, t.stepRuns, t'.stepRuns, orgs, clock, ToStep, org);
  }

  /** Nothing overdue: nothing changes. */
  lemma SweepingNobody(t: Tables, clock: Id -> Instant)
    ensures Swept(t, t, {}, clock)
  {
  }

  /**
   Sweeping organization by organization is one filter over the deployment: with an instant per
   transaction, exactly the approvals overdue at their own organization's instant lapse, exactly
   what waited behind them fails with them, and the total reported is their number.
   */
  lemma {:induction false} SweepIsOneFilter(t: Tables, orgs: seq<Id>, clock: Id -> Instant)
    requires Distinct(orgs)
    ensures Swept(t, SweepAll(t, orgs, clock), Ids(orgs), clock)
    ensures SweepCount(t, orgs, clock) == |FallenIds(t.approvals, Ids(orgs), clock)|
  {
    if orgs == [] {
      SweepingNobody(t, clock);
      assert Ids(orgs) == {};
      assert FallenIds(t.approvals, Ids(orgs), clock) == {};
    } else {
      var front, last := orgs[..|orgs| - 1], orgs[|orgs| - 1];
      SweepIsOneFilter(t, front, clock);
      assert Ids(orgs) == Ids(front) + {last} && last !in Ids(front);
      OneMoreOrg(t, SweepAll(t, front, clock), Ids(front), clock, last);
      OneMoreCounted(t, SweepAll(t, front, clock), Ids(front), clock, last);
    }
  }

  lemma OneMoreCounted(t: Tables, t': Tables, orgs: set<Id>, clock: Id -> Instant, org: Id)
    requires Swept(t, t', orgs, clock) && org !in orgs
    ensures |FallenIds(t.approvals, orgs + {org}, clock)|
            == |FallenIds(t.approvals, orgs, clock)| + |LapsedIds(t'.approvals, org, clock(org))|
  {
    SameLapsing(t.approvals, t'.approvals, orgs, clock, org);
    var before, more := FallenIds(t.approvals, orgs, clock), LapsedIds(t.approvals, org, clock(org));
    assert before !! more;
    assert FallenIds(t.approvals, orgs + {org}, clock) == before + more;
  }

  /** One organization's sweep leaves every row of every other organization as it was. */
  lemma OtherOrganizationsAreUntouched(t: Tables, org: Id, now: Instant)
    ensures var t' := ExpireOrg(t, org, now);
            && (forall id | id in t.approvals && t.approvals[id].org != org :: t'.approvals[id] == t.approvals[id])
            && (forall r | r in t.runs && t.runs[r].org != org :: t'.runs[r] == t.runs[r])
            && (forall w | w in t.workflowRuns && t.workflowRuns[w].org != org :: t'.workflowRuns[w] == t.workflowRuns[w])
            && (forall w | w in t.stepRuns && t.stepRuns[w].org != org :: t'.stepRuns[w] == t.stepRuns[w])
  {
  }
}
