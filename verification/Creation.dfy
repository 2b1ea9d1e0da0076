/**
 Idempotent creation: any number of requests inserting a run under one key, as one step system.

 An insert that meets an uncommitted rival waits on the index; it is refused when the rival
 commits and goes through when the rival rolls back. A refused request reads back the row.
 */
module Creation {
  import opened Rows

  type Key = string

  /** What makes two runs the same run: nothing without a key, else the organization and the key. */
  datatype Claim = Claim(org: Id, key: Option<Key>)

  predicate SameClaim(a: Claim, b: Claim) {
    a.key.Some? && a == b
  }

  datatype Pc =
    | Trying                     // about to insert, or blocked on the index
    | Inserted                   // inserted, not committed
    | Refused(byKey: bool)       // IntegrityError: by the idempotency constraint, or only by the primary key

  datatype Request = Request(claim: Claim, run: Id, pc: Pc)

  datatype Event = Answered(claim: Claim, run: Id, created: bool) | Raised(claim: Claim)

  datatype State = State(rows: map<Id, Claim>, requests: map<Id, Request>, log: seq<Event>)

  const EMPTY := State(map[], map[], [])

  datatype Step =
    | Arrive(q: Id, claim: Claim, run: Id)
    | Insert(q: Id)
    | Refuse(q: Id)
    | Commit(q: Id)
    | ReadBack(q: Id)
    | Vanish(q: Id)              // rolled back, or crashed

  /** A committed row stands in the way. */
  predicate Blocks(s: State, r: Request) {
    r.run in s.rows || HasRow(s, r.claim)
  }

  predicate HasRow(s: State, claim: Claim) {
    exists run :: run in s.rows && SameClaim(s.rows[run], claim)
  }

  predicate Rivals(a: Request, b: Request) {
    a.run == b.run || SameClaim(a.claim, b.claim)
  }

  /** An uncommitted insert stands in the way: the second waits on the index. */
  predicate MustWait(s: State, q: Id)
    requires q in s.requests
  {
    exists other :: other in s.requests && s.requests[other].pc.Inserted? && Rivals(s.requests[other], s.requests[q])
  }

  predicate Enabled(s: State, t: Step) {
    match t
    case Arrive(q, _, _) => q !in s.requests
    case Insert(q) =>
      q in s.requests && s.requests[q].pc.Trying? && !Blocks(s, s.requests[q]) && !MustWait(s, q)
    case Refuse(q) => q in s.requests && s.requests[q].pc.Trying? && Blocks(s, s.requests[q])
    case Commit(q) => q in s.requests && s.requests[q].pc.Inserted?
    case ReadBack(q) => q in s.requests && s.requests[q].pc.Refused?
    case Vanish(q) => q in s.requests
  }

  function At(s: State, q: Id, pc: Pc): State
    requires q in s.requests
  {
    s.(requests := s.requests[q := s.requests[q].(pc := pc)])
  }

  ghost function Do(s: State, t: Step): State
    requires Enabled(s, t)
  {
    match t
    case Arrive(q, claim, run) => s.(requests := s.requests[q := Request(claim, run, Trying)])
    case Insert(q) => At(s, q, Inserted)
    case Refuse(q) => At(s, q, Refused(HasRow(s, s.requests[q].claim)))
    case Commit(q) =>
      var r := s.requests[q];
      s.(rows := s.rows[r.run := r.claim], requests := s.requests - {q}, log := s.log + [Answered(r.claim, r.run, true)])
    case ReadBack(q) =>
      var claim := s.requests[q].claim;
      if HasRow(s, claim) then
        var run :| run in s.rows && SameClaim(s.rows[run], claim);
        s.(requests := s.requests - {q}, log := s.log + [Answered(claim, run, false)])
      else s.(requests := s.requests - {q}, log := s.log + [Raised(claim)])
    case Vanish(q) => s.(requests := s.requests - {q})
  }

  ghost predicate History(states: seq<State>, steps: seq<Step>) {
    && |states| == |steps| + 1 && states[0] == EMPTY
    && forall i | 0 <= i < |steps| :: Enabled(states[i], steps[i]) && states[i + 1] == Do(states[i], steps[i])
  }

  // -- What every step keeps ------------------------------------------------------------------------

  ghost predicate OneRow(s: State) {
    forall a, b | a in s.rows && b in s.rows && SameClaim(s.rows[a], s.rows[b]) :: a == b
  }

  /** Whoever holds an uncommitted insert is alone with it. */
  ghost predicate OneHolder(s: State) {
    && (forall q | q in s.requests && s.requests[q].pc.Inserted? :: !Blocks(s, s.requests[q]))
    && (forall q, q' | q in s.requests && q' in s.requests && s.requests[q].pc.Inserted? && s.requests[q'].pc.Inserted?
                       && Rivals(s.requests[q], s.requests[q']) :: q == q')
  }

  ghost predicate TrueAnswer(s: State, e: Event) {
    e.Answered? ==> e.run in s.rows && s.rows[e.run] == e.claim && (!e.created ==> e.claim.key.Some?)
  }

  ghost predicate TrueAnswers(s: State) {
    forall i | 0 <= i < |s.log| :: TrueAnswer(s, s.log[i])
  }

  predicate Creates(e: Event) {
    e.Answered? && e.created
  }

  ghost predicate OneCreator(s: State) {
    forall i, j | 0 <= i < j < |s.log| && Creates(s.log[i]) && Creates(s.log[j]) :: s.log[i].run != s.log[j].run
  }

  ghost predicate EveryRowHasACreator(s: State) {
    forall run | run in s.rows :: exists i :: 0 <= i < |s.log| && s.log[i] == Answered(s.rows[run], run, true)
  }

  /** A refused request met a row of its key, or at least one of its run id. */
  ghost predicate RefusedForAReason(s: State) {
    forall q | q in s.requests && s.requests[q].pc.Refused? ::
      if s.requests[q].pc.byKey then HasRow(s, s.requests[q].claim) else s.requests[q].run in s.rows
  }

  ghost predicate Inv(s: State) {
    OneRow(s) && OneHolder(s) && TrueAnswers(s) && OneCreator(s) && EveryRowHasACreator(s) && RefusedForAReason(s)
  }

  lemma StepKeepsOneRow(s: State, t: Step)
    requires Enabled(s, t) && Inv(s)
    ensures OneRow(Do(s, t))
  {
    if t.Commit? {
      var r := s.requests[t.q];
      assert !Blocks(s, r);
      assert forall run | run in s.rows :: !SameClaim(s.rows[run], r.claim);
    }
  }

  lemma RowsOnlyGrow(s: State, t: Step)
    requires Enabled(s, t) && Inv(s)
    ensures forall run | run in s.rows :: run in Do(s, t).rows && Do(s, t).rows[run] == s.rows[run]
    ensures forall claim | HasRow(s, claim) :: HasRow(Do(s, t), claim)
    ensures s.log <= Do(s, t).log
  {
    if t.Commit? { assert !Blocks(s, s.requests[t.q]); }
    forall claim | HasRow(s, claim) ensures HasRow(Do(s, t), claim) {
      var run :| run in s.rows && SameClaim(s.rows[run], claim);
      assert run in Do(s, t).rows && SameClaim(Do(s, t).rows[run], claim);
    }
  }

  /** An insert goes through only when no rival's is in flight. */
  lemma InsertIsAlone(s: State, q: Id)
    requires Enabled(s, Insert(q))
    ensures forall other | other in s.requests && s.requests[other].pc.Inserted? :: !Rivals(s.requests[other], s.requests[q])
  {
    assert !MustWait(s, q);
  }

  lemma StepKeepsOneHolder(s: State, t: Step)
    requires Enabled(s, t) && Inv(s)
    ensures OneHolder(Do(s, t))
  {
    var s' := Do(s, t);
    forall q | q in s'.requests && s'.requests[q].pc.Inserted? ensures !Blocks(s', s'.requests[q]) {
      if t.Commit? {
        assert !Blocks(s, s.requests[q]) && !Rivals(s.requests[t.q], s.requests[q]);
        assert forall run | run in s'.rows :: run == s.requests[t.q].run || run in s.rows;
      } else if t.Insert? && q == t.q {
        assert s'.rows == s.rows;
      } else {
        assert s.requests[q].pc.Inserted? && s'.rows == s.rows;
      }
    }
    forall q, q' | q in s'.requests && q' in s'.requests && s'.requests[q].pc.Inserted? && s'.requests[q'].pc.Inserted?
                   && Rivals(s'.requests[q], s'.requests[q'])
      ensures q == q'
    {
      if t.Insert? { InsertIsAlone(s, t.q); }
    }
  }

  lemma StepKeepsTrueAnswers(s: State, t: Step)
    requires Enabled(s, t) && Inv(s)
    ensures TrueAnswers(Do(s, t))
  {
    var s' := Do(s, t);
    RowsOnlyGrow(s, t);
    forall i | 0 <= i < |s'.log| ensures TrueAnswer(s', s'.log[i]) {
      if i < |s.log| { assert TrueAnswer(s, s.log[i]) && s'.log[i] == s.log[i]; }
    }
  }

  lemma StepKeepsOneCreator(s: State, t: Step)
    requires Enabled(s, t) && Inv(s)
    ensures OneCreator(Do(s, t))
  {
    if t.Commit? {
      assert !Blocks(s, s.requests[t.q]);
      forall i | 0 <= i < |s.log| && Creates(s.log[i]) ensures s.log[i].run != s.requests[t.q].run {
        assert TrueAnswer(s, s.log[i]);
      }
    }
  }

  lemma StepKeepsCreators(s: State, t: Step)
    requires Enabled(s, t) && Inv(s)
    ensures EveryRowHasACreator(Do(s, t))
  {
    var s' := Do(s, t);
    RowsOnlyGrow(s, t);
    forall run | run in s'.rows ensures exists i :: 0 <= i < |s'.log| && s'.log[i] == Answered(s'.rows[run], run, true) {
      if run in s.rows {
        var i :| 0 <= i < |s.log| && s.log[i] == Answered(s.rows[run], run, true);
        assert s'.log[i] == s.log[i];
      } else {
        assert s'.log[|s.log|] == Answered(s'.rows[run], run, true);
      }
    }
  }

  lemma StepKeepsReasons(s: State, t: Step)
    requires Enabled(s, t) && Inv(s)
    ensures RefusedForAReason(Do(s, t))
  {
    RowsOnlyGrow(s, t);
  }

  lemma {:induction false} InvAlways(states: seq<State>, steps: seq<Step>, i: nat)
    requires History(states, steps) && i < |states|
    ensures Inv(states[i])
  {
    if i > 0 {
      InvAlways(states, steps, i - 1);
      var s, t := states[i - 1], steps[i - 1];
      StepKeepsOneRow(s, t);
      StepKeepsOneHolder(s, t);
      StepKeepsTrueAnswers(s, t);
      StepKeepsOneCreator(s, t);
      StepKeepsCreators(s, t);
      StepKeepsReasons(s, t);
    }
  }

  // -- What it promises ---------------------------------------------------------------------------------

  /** At most one run ever exists under one organization's key. */
  lemma AtMostOneRun(states: seq<State>, steps: seq<Step>, i: nat, a: Id, b: Id)
    requires History(states, steps) && i < |states|
    requires a in states[i].rows && b in states[i].rows
    requires states[i].rows[a].org == states[i].rows[b].org
    requires states[i].rows[a].key.Some? && states[i].rows[a].key == states[i].rows[b].key
    ensures a == b
  {
    InvAlways(states, steps, i);
  }

  predicate CreatedAt(s: State, claim: Claim, i: nat)
    requires i < |s.log|
  {
    s.log[i].Answered? && s.log[i].claim == claim && s.log[i].created
  }

  lemma AnswersNameOneRun(s: State, k: nat, l: nat)
    requires OneRow(s) && TrueAnswers(s) && k < |s.log| && l < |s.log|
    requires s.log[k].Answered? && s.log[l].Answered? && SameClaim(s.log[k].claim, s.log[l].claim)
    ensures s.log[l].run == s.log[k].run
  {
    assert TrueAnswer(s, s.log[k]) && TrueAnswer(s, s.log[l]);
  }

  lemma OneAnswerCreates(s: State, k: nat)
    requires OneRow(s) && TrueAnswers(s) && OneCreator(s) && EveryRowHasACreator(s) && k < |s.log|
    requires s.log[k].Answered? && s.log[k].claim.key.Some?
    ensures exists c :: 0 <= c < |s.log| && CreatedAt(s, s.log[k].claim, c)
    ensures forall c, d | 0 <= c < |s.log| && 0 <= d < |s.log| && CreatedAt(s, s.log[k].claim, c) && CreatedAt(s, s.log[k].claim, d) :: c == d
  {
    var claim := s.log[k].claim;
    assert TrueAnswer(s, s.log[k]);
    var c :| 0 <= c < |s.log| && s.log[c] == Answered(s.rows[s.log[k].run], s.log[k].run, true);
    assert CreatedAt(s, claim, c);
    forall c, d | 0 <= c < |s.log| && 0 <= d < |s.log| && CreatedAt(s, claim, c) && CreatedAt(s, claim, d)
      ensures c == d
    {
      AnswersNameOneRun(s, c, d);
      assert Creates(s.log[c]) && Creates(s.log[d]);
    }
  }

  /** Every answer about a key names the same run; exactly one of them, once there is any, says "created". */
  lemma AnswersAgree(states: seq<State>, steps: seq<Step>, i: nat, k: nat)
    requires History(states, steps) && i < |states| && k < |states[i].log|
    requires states[i].log[k].Answered? && states[i].log[k].claim.key.Some?
    ensures var s, claim := states[i], states[i].log[k].claim;
            && (forall l | 0 <= l < |s.log| && s.log[l].Answered? && s.log[l].claim.org == claim.org && s.log[l].claim.key == claim.key ::
                  s.log[l].run == s.log[k].run)
            && (exists c :: 0 <= c < |s.log| && CreatedAt(s, claim, c))
            && (forall c, d | 0 <= c < |s.log| && 0 <= d < |s.log| && CreatedAt(s, claim, c) && CreatedAt(s, claim, d) :: c == d)
  {
    hide History, OneRow, OneHolder, TrueAnswers, OneCreator, EveryRowHasACreator, RefusedForAReason, CreatedAt;
    InvAlways(states, steps, i);
    var s := states[i];
    OneAnswerCreates(s, k);
    forall l | 0 <= l < |s.log| && s.log[l].Answered? && s.log[l].claim.org == s.log[k].claim.org && s.log[l].claim.key == s.log[k].claim.key
      ensures s.log[l].run == s.log[k].run {
      AnswersNameOneRun(s, k, l);
    }
  }

  /** A request refused by the idempotency constraint always finds the run it lost to. */
  lemma LosersAreAnswered(states: seq<State>, steps: seq<Step>, i: nat, q: Id)
    requires History(states, steps) && i < |steps| && steps[i] == ReadBack(q)
    requires q in states[i].requests && states[i].requests[q].pc == Refused(true)
    ensures |states[i + 1].log| > 0
    ensures var answer := states[i + 1].log[|states[i + 1].log| - 1];
            answer.Answered? && !answer.created && answer.claim == states[i].requests[q].claim
  {
    InvAlways(states, steps, i);
    assert Enabled(states[i], steps[i]) && states[i + 1] == Do(states[i], steps[i]);
    assert HasRow(states[i], states[i].requests[q].claim);
  }

  /**
   The integrity error reaches the caller exactly when no run of its key exists at the read-back. It
   was then never the idempotency constraint that fired: the request lost over its run id, to a run
   made under another claim.
   */
  lemma RaisesExactlyWithoutARow(states: seq<State>, steps: seq<Step>, i: nat, q: Id)
    requires History(states, steps) && i < |steps| && steps[i] == ReadBack(q) && q in states[i].requests
    ensures |states[i + 1].log| == |states[i].log| + 1
    ensures var s, r := states[i], states[i].requests[q];
            && (states[i + 1].log[|s.log|].Raised? <==>
                  forall run | run in s.rows && s.rows[run].org == r.claim.org :: r.claim.key.None? || s.rows[run].key != r.claim.key)
            && (states[i + 1].log[|s.log|].Raised? ==>
                  r.pc == Refused(false) && r.run in s.rows
                  && (r.claim.key.None? || s.rows[r.run].org != r.claim.org || s.rows[r.run].key != r.claim.key))
  {
    InvAlways(states, steps, i);
    assert Enabled(states[i], steps[i]) && states[i + 1] == Do(states[i], steps[i]);
  }
}
