/**
 Requests of one transaction, as the session executes them: conditional updates on a working copy
 of the tables, then a commit of all of it or a rollback of all of it.
 */
module Sessions {
  import opened Lifecycle
  import opened Rows
  import opened Expiry
  import Protocol

  function Shared(t: Tables): Protocol.Db {
    Protocol.Db(t.runs, t.executions, t.approvals)
  }

  /** What a decision request is told. */
  datatype DecisionAnswer = NotFound | Won | AlreadyDecided | Lapsed

  datatype CancelAnswer = RunNotFound | NotCancellable | RunCancelled

  predicate Exists(t: Tables, org: Id, id: Id) {
    id in t.approvals && t.approvals[id].org == org
  }

  /** Out of PENDING, and nothing else about the row. */
  predicate Moved(before: Approval, after: Approval, status: ApprovalStatus) {
    before.status == ApprovalStatus.Pending && after == before.(status := status)
  }

  function ChangedIds(before: Approvals, after: Approvals): set<Id>
    requires before.Keys == after.Keys
  {
    set id | id in after && after[id] != before[id]
  }

  lemma WithdrawingSettles(rows: Approvals, org: Id, holder: Holder)
    ensures var after := WithdrawRows(rows, org, holder);
            && after.Keys == rows.Keys
            && (forall id | id in after :: !Withdraws(after[id], org, holder))
            && (forall id | id in after ::
                  || after[id] == rows[id]
                  || (Moved(rows[id], after[id], ApprovalStatus.Cancelled) && HeldBy(after[id], holder) && after[id].org == org))
            && ChangedIds(rows, after) == WithdrawnIds(rows, org, holder)
  {
  }

  class Session {
    var db: Tables
    var durable: Tables

    constructor (t: Tables)
      ensures Clean() && durable == t
    {
      db, durable := t, t;
    }

    predicate Clean()
      reads this
    {
      db == durable
    }

    method Commit()
      modifies this`durable
      ensures durable == db
    {
      durable := db;
    }

    method Rollback()
      modifies this`db
      ensures db == durable
    {
      db := durable;
    }

    // -- Conditional updates ------------------------------------------------------------------

    /**
     `None` where the original refuses a decision no person can make. A decision wins exactly over a
     pending approval of this organization whose deadline has not come, and records who decided,
     when, what and why; everything else about the row, and every other row, is as it was.
     */
    method Decide(org: Id, id: Id, decision: ApprovalStatus, decider: Id, reason: Option<string>, now: Instant)
      returns (won: Option<bool>)
      modifies this`db
      ensures won.None? <==> decision != Approved && decision != Rejected
      ensures won == Some(true) <==>
                && (decision == Approved || decision == Rejected)
                && id in old(db).approvals && old(db).approvals[id].org == org
                && old(db).approvals[id].status == ApprovalStatus.Pending
                && (old(db).approvals[id].expiresAt.None? || now < old(db).approvals[id].expiresAt.value)
      ensures won == Some(true) ==>
                && id in db.approvals && db.approvals[id].status == decision
                && db.approvals[id].approvedBy == Some(decider) && db.approvals[id].approvedAt == Some(now)
                && db.approvals[id].decisionReason == reason
                && SameQuestion(old(db).approvals[id], db.approvals[id])
                && db == old(db).(approvals := old(db).approvals[id := db.approvals[id]])
      ensures won != Some(true) ==> db == old(db)
    {
      if decision != Approved && decision != Rejected { return None; }
      if id !in db.approvals { return Some(false); }
      var a := db.approvals[id];
      if a.org != org || a.status != ApprovalStatus.Pending || !(a.expiresAt.None? || a.expiresAt.value > now) {
        return Some(false);
      }
      db := db.(approvals := db.approvals[id := a.(status := decision, approvedBy := Some(decider),
                                                  approvedAt := Some(now), decisionReason := reason)]);
      return Some(true);
    }

    /**
     Afterwards nothing of the organization is both PENDING and overdue; the rows returned are exactly
     those this call moved, each from PENDING to EXPIRED and in nothing else; every other row is as it was.
     */
    method LapseDue(org: Id, now: Instant) returns (lapsed: set<Id>)
      modifies this`db
      ensures db == old(db).(approvals := db.approvals) && db.approvals.Keys == old(db).approvals.Keys
      ensures forall id | id in db.approvals :: !Lapses(db.approvals[id], org, now)
      ensures forall id | id in db.approvals ::
                if id in lapsed then Moved(old(db).approvals[id], db.approvals[id], Expired) && Lapses(old(db).approvals[id], org, now)
                else db.approvals[id] == old(db).approvals[id]
      ensures lapsed == LapsedIds(old(db).approvals, org, now) && db.approvals == ExpireRows(old(db).approvals, org, now)
    {
      lapsed := set id | id in db.approvals && db.approvals[id].org == org && db.approvals[id].status == ApprovalStatus.Pending
                         && Overdue(db.approvals[id], now);
      db := db.(approvals := map id | id in db.approvals ::
                  if id in lapsed then db.approvals[id].(status := Expired) else db.approvals[id]);
    }

    /**
     Afterwards nobody of the organization is being asked for this process; the count is of the rows
     this call moved, each from PENDING to CANCELLED and in nothing else; every other row is as it was.
     */
    method Withdraw(org: Id, holder: Holder) returns (count: nat)
      modifies this`db
      ensures db == old(db).(approvals := db.approvals) && db.approvals.Keys == old(db).approvals.Keys
      ensures forall id | id in db.approvals :: !Withdraws(db.approvals[id], org, holder)
      ensures forall id | id in db.approvals ::
                || db.approvals[id] == old(db).approvals[id]
                || (Moved(old(db).approvals[id], db.approvals[id], ApprovalStatus.Cancelled) && HeldBy(db.approvals[id], holder)
                    && db.approvals[id].org == org)
      ensures count == |ChangedIds(old(db).approvals, db.approvals)|
      ensures count == |WithdrawnIds(old(db).approvals, org, holder)| && db.approvals == WithdrawRows(old(db).approvals, org, holder)
    {
      hide WithdrawRows, WithdrawnIds, Withdraws, Moved;
      WithdrawingSettles(db.approvals, org, holder);
      count := |WithdrawnIds(db.approvals, org, holder)|;
      db := db.(approvals := WithdrawRows(db.approvals, org, holder));
    }

    method CancelPaused(org: Id, run: Id) returns (cancelled: bool)
      modifies this`db
      ensures cancelled <==> run in old(db).runs && old(db).runs[run].org == org && old(db).runs[run].status == AwaitingApproval
      ensures db == if cancelled
                    then old(db).(runs := old(db).runs[run := RunRow(org, AgentRunStatus.Cancelled, Some("agent_run_cancelled"))])
                    else old(db)
      ensures db == old(db).(runs := CancelPausedRows(old(db).runs, org, run))
    {
      cancelled := run in db.runs && db.runs[run].org == org && db.runs[run].status == AwaitingApproval;
      if cancelled {
        db := db.(runs := db.runs[run := db.runs[run].(status := AgentRunStatus.Cancelled,
                                                       errorCode := Some(CANCELLED_ERROR_CODE))]);
      }
    }

    /** True to exactly one caller: the one that found the flag down. */
    method Claim(org: Id, exec: Id) returns (claimed: bool)
      modifies this`db
      ensures claimed <==> exec in old(db).executions && old(db).executions[exec].org == org && !old(db).executions[exec].executed
      ensures db == if claimed
                    then old(db).(executions := old(db).executions[exec := old(db).executions[exec].(executed := true)])
                    else old(db)
      ensures exec in db.executions && db.executions[exec].org == org ==> db.executions[exec].executed
    {
      claimed := exec in db.executions && db.executions[exec].org == org && !db.executions[exec].executed;
      if claimed {
        db := db.(executions := db.executions[exec := db.executions[exec].(executed := true)]);
      }
    }

    /** A paused run is never swept, however old: its age says nothing about whether anyone still cares. */
    method SweepAbandoned(org: Id, stale: set<Id>) returns (count: nat)
      modifies this`db
      ensures db == old(db).(runs := db.runs) && db.runs.Keys == old(db).runs.Keys
      ensures forall r | r in db.runs ::
                db.runs[r] == if r in stale && old(db).runs[r].org == org
                                 && (old(db).runs[r].status == AgentRunStatus.Pending || old(db).runs[r].status == Running)
                              then RunRow(org, AgentRunStatus.Failed, Some("agent_run_abandoned"))
                              else old(db).runs[r]
      ensures db.runs == SweepRows(old(db).runs, org, stale)
      ensures count == |set r | r in old(db).runs && r in stale && old(db).runs[r].org == org && Active(old(db).runs[r].status)|
      ensures forall r | r in old(db).runs && old(db).runs[r].status == AwaitingApproval :: r in db.runs && db.runs[r] == old(db).runs[r]
    {
      var swept := set r | r in db.runs && r in stale && db.runs[r].org == org && Active(db.runs[r].status);
      db := db.(runs := map r | r in db.runs ::
                  if r in swept then db.runs[r].(status := AgentRunStatus.Failed, errorCode := Some(ABANDONED_ERROR_CODE)) else db.runs[r]);
      count := |swept|;
    }

    // -- Expiry -------------------------------------------------------------------------------

    method ExpireDue(org: Id, now: Instant) returns (count: nat)
      requires Clean()
      modifies this
      ensures Clean() && durable == ExpireOrg(old(durable), org, now)
      ensures count == |LapsedIds(old(durable).approvals, org, now)|
      ensures Shared(durable) == Protocol.ExpireDb(Shared(old(durable)), org, now)
    {
      ExpiryIsTheStep(db, org, now);
      var rows := db.approvals;
      var lapsed := LapseDue(org, now);
      if lapsed == {} {
        NothingLapsed(old(durable), org, now);
        return 0;
      }
      db := db.(runs := FailAgentRuns(db.runs, org, HeldRuns(rows, org, now)));
      db := db.(workflowRuns := FailWorks(db.workflowRuns, org, HeldWorks(rows, org, now, ToWorkflow)));
      db := db.(stepRuns := FailWorks(db.stepRuns, org, HeldWorks(rows, org, now, ToStep)));
      Commit();
      count := |lapsed|;
    }

    method ExpireEveryOrganization(orgs: seq<Id>, clock: Id -> Instant) returns (expired: nat)
      requires Clean() && Distinct(orgs)
      modifies this
      ensures Clean() && Swept(old(durable), durable, Ids(orgs), clock)
      ensures expired == |FallenIds(old(durable).approvals, Ids(orgs), clock)|
    {
      expired := 0;
      for k := 0 to |orgs|
        invariant Clean()
        invariant durable == SweepAll(old(durable), orgs[..k], clock)
        invariant expired == SweepCount(old(durable), orgs[..k], clock)
      {
        assert orgs[..k + 1][..k] == orgs[..k];
        var count := ExpireDue(orgs[k], clock(orgs[k]));
        expired := expired + count;
      }
      assert orgs[..|orgs|] == orgs;
      SweepIsOneFilter(old(durable), orgs, clock);
    }

    // -- Deciding, and being refused -------------------------------------------------------------

    /**
     The refusal, when nothing else moves between its statements: the row says why, and a row still
     PENDING lapses in passing, with the run it was holding up.
     */
    method ExplainRefusal(org: Id, id: Id, now: Instant) returns (answer: DecisionAnswer)
      requires Clean() && Exists(db, org, id) && !Decidable(db.approvals, org, id, now)
      modifies this
      ensures Clean() && Exists(db, org, id)
      ensures durable == if old(durable).approvals[id].status == ApprovalStatus.Pending then ExpireOrg(old(durable), org, now)
                         else old(durable)
      ensures answer == if durable.approvals[id].status == Expired then Lapsed else AlreadyDecided
    {
      var current := db.approvals[id];
      if current.status == Expired { return Lapsed; }
      if current.status != ApprovalStatus.Pending { return AlreadyDecided; }
      assert id in LapsedIds(db.approvals, org, now);
      var lapsed := ExpireDue(org, now);
      if lapsed == 0 { return AlreadyDecided; }
      return Lapsed;
    }

    /** A decision, up to the point where it is on record: whatever it is told, the approval is settled. */
    method DecideApproval(org: Id, id: Id, approve: bool, decider: Id, reason: Option<string>, now: Instant)
      returns (answer: DecisionAnswer)
      requires Clean()
      modifies this
      ensures Clean()
      ensures answer == NotFound <==> !Exists(old(durable), org, id)
      ensures answer == NotFound ==> durable == old(durable)
      ensures answer == Won <==>
                && Exists(old(durable), org, id) && old(durable).approvals[id].status == ApprovalStatus.Pending
                && (old(durable).approvals[id].expiresAt.None? || now < old(durable).approvals[id].expiresAt.value)
      ensures answer == Won ==>
                && Exists(durable, org, id)
                && durable.approvals[id].status == (if approve then Approved else Rejected)
                && durable.approvals[id].approvedBy == Some(decider) && durable.approvals[id].approvedAt == Some(now)
                && durable.approvals[id].decisionReason == reason
                && SameQuestion(old(durable).approvals[id], durable.approvals[id])
                && durable == old(durable).(approvals := old(durable).approvals[id := durable.approvals[id]])
      ensures answer != NotFound ==>
                Exists(durable, org, id) && durable.approvals[id].status != ApprovalStatus.Pending
                && (answer == Lapsed <==> durable.approvals[id].status == Expired)
    {
      if id !in db.approvals || db.approvals[id].org != org { return NotFound; }
      var won := Decide(org, id, if approve then Approved else Rejected, decider, reason, now);
      if !won.value {
        answer := ExplainRefusal(org, id, now);
        return;
      }
      Commit();
      return Won;
    }

    // -- Cancelling ------------------------------------------------------------------------------

    /** The approval first, then the run; a raise rolls both back. It is the protocol's one-step cancel. */
    method Cancel(org: Id, run: Id) returns (answer: CancelAnswer)
      requires Clean()
      modifies this
      ensures Clean()
      ensures answer == RunNotFound <==> !(run in old(durable).runs && old(durable).runs[run].org == org)
      ensures answer == RunCancelled <==>
                && WithdrawnIds(old(durable).approvals, org, AgentRun(run)) != {}
                && Cancellable(old(durable).runs, org, run)
      ensures answer != RunCancelled ==> durable == old(durable)
      ensures answer != RunNotFound ==> Shared(durable) == Protocol.CancelDb(Shared(old(durable)), run)
      ensures answer == RunCancelled ==>
                durable.runs[run].status == AgentRunStatus.Cancelled
                && forall a | a in durable.approvals :: !Withdraws(durable.approvals[a], org, AgentRun(run))
    {
      if run !in db.runs || db.runs[run].org != org { return RunNotFound; }
      var withdrawn := Withdraw(org, AgentRun(run));
      if withdrawn == 0 {
        Rollback();
        return NotCancellable;
      }
      var cancelled := CancelPaused(org, run);
      if !cancelled {
        Rollback();
        return NotCancellable;
      }
      Commit();
      return RunCancelled;
    }
  }

  lemma NothingLapsed(t: Tables, org: Id, now: Instant)
    requires LapsedIds(t.approvals, org, now) == {}
    ensures ExpireOrg(t, org, now) == t
  {
    NoneLapse(t.approvals, org, now);
    FailingNobody(t.runs, t.workflowRuns, org);
    FailingNobody(t.runs, t.stepRuns, org);
    hide ExpireRows, FailAgentRuns, FailWorks;
  }

  lemma NoneLapse(rows: Approvals, org: Id, now: Instant)
    requires LapsedIds(rows, org, now) == {}
    ensures ExpireRows(rows, org, now) == rows && HeldRuns(rows, org, now) == {}
    ensures forall link :: HeldWorks(rows, org, now, link) == {}
  {
    assert forall id | id in rows :: id !in LapsedIds(rows, org, now);
  }

  lemma FailingNobody(runs: Runs, works: Works, org: Id)
    ensures FailAgentRuns(runs, org, {}) == runs && FailWorks(works, org, {}) == works
  {
  }

  /** The session's expiry is the protocol's. */
  lemma ExpiryIsTheStep(t: Tables, org: Id, now: Instant)
    ensures Shared(ExpireOrg(t, org, now)) == Protocol.ExpireDb(Shared(t), org, now)
  {
  }
}
