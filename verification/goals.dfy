/** The savings goals page (`client/pages/Goals.tsx`): contributing to a
    goal, creating goals, and the counts and progress figures shown. */
module Goals {
  import opened Types
  import opened Seqs

  datatype GoalKind = Savings | Investment | Debt | Emergency | Purchase | Vacation

  datatype Priority = Low | Medium | High

  /** A goal; `deadline` is the raw date text, `createdAt` an instant. */
  datatype Goal = Goal(
    id: string,
    title: string,
    description: string,
    targetAmount: real,
    currentAmount: real,
    kind: GoalKind,
    deadline: string,
    isCompleted: bool,
    priority: Priority,
    createdAt: int)

  /** The completion flag agrees with the amounts. */
  predicate Consistent(g: Goal)
  {
    g.isCompleted == (g.currentAmount >= g.targetAmount)
  }

  predicate AllConsistent(gs: seq<Goal>)
  {
    forall i :: 0 <= i < |gs| ==> Consistent(gs[i])
  }

  /** One goal after a contribution of `amount`. */
  function Contribute(g: Goal, amount: real): (r: Goal)
    ensures r.currentAmount == g.currentAmount + amount
    ensures Consistent(r)
    ensures r.(currentAmount := g.currentAmount, isCompleted := g.isCompleted) == g
  {
    var newAmount := g.currentAmount + amount;
    g.(currentAmount := newAmount, isCompleted := newAmount >= g.targetAmount)
  }

  /** The goal list after `addToGoal`: every goal with the id receives
      the contribution, the others are left alone. */
  function Contributed(gs: seq<Goal>, goalId: string, amount: real): (r: seq<Goal>)
    ensures |r| == |gs|
    ensures forall i :: 0 <= i < |gs| && gs[i].id != goalId ==> r[i] == gs[i]
    ensures forall i :: 0 <= i < |gs| && gs[i].id == goalId ==>
              r[i].currentAmount == gs[i].currentAmount + amount && Consistent(r[i])
              && r[i].(currentAmount := gs[i].currentAmount, isCompleted := gs[i].isCompleted) == gs[i]
  {
    seq(|gs|, i requires 0 <= i < |gs| =>
      if gs[i].id == goalId then Contribute(gs[i], amount) else gs[i])
  }

  /** The contribution completes a goal that was not completed before. */
  predicate NewlyAchieved(g: Goal, goalId: string, amount: real)
  {
    g.id == goalId && !g.isCompleted && Contribute(g, amount).isCompleted
  }

  /** The titles announced as achieved, in list order. */
  function Announced(gs: seq<Goal>, goalId: string, amount: real): seq<string>
  {
    if |gs| == 0 then []
    else
      (if NewlyAchieved(gs[0], goalId, amount) then [gs[0].title] else [])
      + Announced(gs[1..], goalId, amount)
  }

  /** `addToGoal`: the new list, where every goal with the id receives the
      contribution and the others are left alone, and the "Goal Achieved"
      notifications, one title for each goal the contribution completes. */
  function AddToGoal(gs: seq<Goal>, goalId: string, amount: real): (r: (seq<Goal>, seq<string>))
    ensures |r.0| == |gs|
    ensures forall i :: 0 <= i < |gs| && gs[i].id != goalId ==> r.0[i] == gs[i]
    ensures forall i :: 0 <= i < |gs| && gs[i].id == goalId ==>
              && r.0[i].currentAmount == gs[i].currentAmount + amount
              && Consistent(r.0[i])
              && r.0[i].(currentAmount := gs[i].currentAmount, isCompleted := gs[i].isCompleted) == gs[i]
    ensures forall t :: t in r.1 <==>
              exists i :: 0 <= i < |gs| && gs[i].title == t && gs[i].id == goalId
                          && !gs[i].isCompleted && r.0[i].isCompleted
  {
    AnnouncedAll(gs, goalId, amount);
    (Contributed(gs, goalId, amount), Announced(gs, goalId, amount))
  }

  lemma AnnouncedAll(gs: seq<Goal>, goalId: string, amount: real)
    ensures forall t :: t in Announced(gs, goalId, amount) <==>
              exists i :: 0 <= i < |gs| && gs[i].title == t
                          && gs[i].id == goalId && !gs[i].isCompleted
                          && Contributed(gs, goalId, amount)[i].isCompleted
  {
    forall t {
      AnnouncedExactly(gs, goalId, amount, t);
    }
  }

  /** A title is announced exactly when its goal goes from not completed
      to completed. */
  lemma {:induction false} AnnouncedExactly(gs: seq<Goal>, goalId: string, amount: real, t: string)
    ensures t in Announced(gs, goalId, amount) <==>
              exists i :: 0 <= i < |gs| && gs[i].title == t
                          && gs[i].id == goalId && !gs[i].isCompleted
                          && Contributed(gs, goalId, amount)[i].isCompleted
  {
    if |gs| > 0 {
      AnnouncedExactly(gs[1..], goalId, amount, t);
      var r := Contributed(gs, goalId, amount);
      var rest := Contributed(gs[1..], goalId, amount);
      forall i | 1 <= i < |gs|
        ensures r[i] == rest[i - 1] && gs[i] == gs[1..][i - 1]
      {
      }
    }
  }

  /** Consistent goals with nothing added announce nothing. */
  lemma {:induction false} NothingAnnounced(gs: seq<Goal>, goalId: string)
    requires AllConsistent(gs)
    ensures Announced(gs, goalId, 0.0) == []
  {
    if |gs| > 0 {
      NothingAnnounced(gs[1..], goalId);
    }
  }

  /** Two contributions in a row leave the goals as one contribution of
      their sum would. */
  lemma AddTwice(gs: seq<Goal>, goalId: string, a: real, b: real)
    ensures Contributed(Contributed(gs, goalId, a), goalId, b) == Contributed(gs, goalId, a + b)
  {
    var once := Contributed(gs, goalId, a + b);
    var twice := Contributed(Contributed(gs, goalId, a), goalId, b);
    assert |twice| == |once|;
    forall i | 0 <= i < |gs|
      ensures twice[i] == once[i]
    {
      assert (gs[i].currentAmount + a) + b == gs[i].currentAmount + (a + b);
    }
  }

  /** A contribution keeps every completion flag in agreement with the
      amounts, and a contribution of nothing to consistent goals changes
      nothing and announces nothing. */
  lemma AddKeepsConsistent(gs: seq<Goal>, goalId: string, amount: real)
    requires AllConsistent(gs)
    ensures AllConsistent(Contributed(gs, goalId, amount))
    ensures amount == 0.0 ==> AddToGoal(gs, goalId, amount) == (gs, [])
  {
    if amount == 0.0 {
      assert Contributed(gs, goalId, amount) == gs;
      NothingAnnounced(gs, goalId);
    }
  }

  /** The number of goals with an id. */
  function CountId(gs: seq<Goal>, goalId: string): nat
  {
    if |gs| == 0 then 0 else (if gs[0].id == goalId then 1 else 0) + CountId(gs[1..], goalId)
  }

  function Target(g: Goal): real { g.targetAmount }
  function Saved(g: Goal): real { g.currentAmount }

  /** A contribution raises the total saved by the amount once for every
      goal carrying the id. */
  lemma {:induction false} AddChangesSaved(gs: seq<Goal>, goalId: string, amount: real)
    ensures Sum(Contributed(gs, goalId, amount), Saved)
            == Sum(gs, Saved) + amount * CountId(gs, goalId) as real
  {
    if |gs| > 0 {
      AddChangesSaved(gs[1..], goalId, amount);
      ContributedSplits(gs, goalId, amount);
      var h := if gs[0].id == goalId then Contribute(gs[0], amount) else gs[0];
      SumAppend([h], Contributed(gs[1..], goalId, amount), Saved);
      var n := CountId(gs[1..], goalId) as real;
      assert Sum(gs, Saved) == gs[0].currentAmount + Sum(gs[1..], Saved);
      if gs[0].id == goalId {
        assert CountId(gs, goalId) as real == 1.0 + n;
        Regroup(gs[0].currentAmount, Sum(gs[1..], Saved), amount, n);
      } else {
        assert CountId(gs, goalId) as real == n;
      }
    }
  }

  lemma Regroup(x: real, y: real, amount: real, n: real)
    ensures (x + amount) + (y + amount * n) == (x + y) + amount * (1.0 + n)
  {
  }

  /** A contribution leaves the total aimed for unchanged. */
  lemma {:induction false} AddKeepsTargets(gs: seq<Goal>, goalId: string, amount: real)
    ensures Sum(Contributed(gs, goalId, amount), Target) == Sum(gs, Target)
  {
    if |gs| > 0 {
      AddKeepsTargets(gs[1..], goalId, amount);
      ContributedSplits(gs, goalId, amount);
      var h := if gs[0].id == goalId then Contribute(gs[0], amount) else gs[0];
      SumAppend([h], Contributed(gs[1..], goalId, amount), Target);
    }
  }

  /** The contribution goes element by element. */
  lemma ContributedSplits(gs: seq<Goal>, goalId: string, amount: real)
    requires |gs| > 0
    ensures Contributed(gs, goalId, amount)
            == [if gs[0].id == goalId then Contribute(gs[0], amount) else gs[0]]
               + Contributed(gs[1..], goalId, amount)
  {
    var r := Contributed(gs, goalId, amount);
    var rest := Contributed(gs[1..], goalId, amount);
    assert r[1..] == rest;
    assert r == [r[0]] + r[1..];
  }

  // ---------------------------------------------------------------------
  // Counts and displayed figures

  predicate IsDone(g: Goal) { g.isCompleted }
  predicate NotDone(g: Goal) { !g.isCompleted }

  function CompletedCount(gs: seq<Goal>): nat { |Filter(gs, IsDone)| }
  function ActiveCount(gs: seq<Goal>): nat { |Filter(gs, NotDone)| }

  /** Every goal is counted exactly once, as completed or as active. */
  lemma {:induction false} CountsPartition(gs: seq<Goal>)
    ensures CompletedCount(gs) + ActiveCount(gs) == |gs|
  {
    if |gs| > 0 {
      CountsPartition(gs[1..]);
    }
  }

  /** The progress bar value: the percentage, capped at 100; full exactly
      when the percentage reaches 100, which for a positive target is when
      the target is reached. A negative target gives a negative bar. */
  function Progress(g: Goal): (r: real)
    requires g.targetAmount != 0.0
    ensures r <= 100.0
    ensures r == 100.0 <==> Percent(g.currentAmount, g.targetAmount) >= 100.0
    ensures r < 100.0 ==> r == Percent(g.currentAmount, g.targetAmount)
    ensures g.targetAmount > 0.0 ==> (r == 100.0 <==> g.currentAmount >= g.targetAmount)
  {
    var pct := Percent(g.currentAmount, g.targetAmount);
    assert g.targetAmount > 0.0 ==> (pct >= 100.0 <==> g.currentAmount >= g.targetAmount) by {
      assert pct * g.targetAmount == g.currentAmount * 100.0;
    }
    if pct < 100.0 then pct else 100.0
  }

  /** The remaining amount shown: never negative, zero exactly when the
      target is reached. */
  function Remaining(g: Goal): (r: real)
    ensures r >= 0.0
    ensures r == 0.0 <==> g.currentAmount >= g.targetAmount
    ensures r > 0.0 ==> r + g.currentAmount == g.targetAmount
  {
    if 0.0 >= g.targetAmount - g.currentAmount then 0.0 else g.targetAmount - g.currentAmount
  }

  /** For a consistent goal with a positive target, a full bar, a zero
      remainder and the completed flag all say the same thing. */
  lemma CompletionViews(g: Goal)
    requires Consistent(g) && g.targetAmount > 0.0
    ensures Progress(g) == 100.0 <==> g.isCompleted
    ensures Remaining(g) == 0.0 <==> g.isCompleted
  {
  }

  // ---------------------------------------------------------------------
  // Creating

  /** The creation form; the target amount is the raw input text. */
  datatype GoalForm = GoalForm(
    title: string,
    description: string,
    targetAmount: string,
    kind: GoalKind,
    deadline: string,
    priority: Priority)

  const BlankForm := GoalForm("", "", "", Savings, "", Medium)

  datatype Page = Page(goals: seq<Goal>, form: GoalForm, dialogOpen: bool)

  datatype CreateOutcome = MissingFields | Created(goal: Goal)

  /** `handleCreateGoal`. `parseAmount` stands for `parseFloat`; `freshId`
      and `now` for the clock. */
  function CreateGoal(p: Page, parseAmount: string -> real, freshId: string, now: int): (r: (Page, CreateOutcome))
    ensures r.1 == MissingFields <==> p.form.title == "" || p.form.targetAmount == "" || p.form.deadline == ""
    ensures r.1 == MissingFields ==> r.0 == p
    ensures r.1.Created? ==>
              var g := r.1.goal;
              && r.0.goals == p.goals + [g]
              && g.id == freshId && g.title == p.form.title && g.description == p.form.description
              && g.targetAmount == parseAmount(p.form.targetAmount)
              && g.kind == p.form.kind && g.deadline == p.form.deadline
              && g.priority == p.form.priority && g.createdAt == now
              && g.currentAmount == 0.0 && !g.isCompleted
              && r.0.form == BlankForm && !r.0.dialogOpen
  {
    var f := p.form;
    if f.title == "" || f.targetAmount == "" || f.deadline == "" then (p, MissingFields)
    else
      var g := Goal(freshId, f.title, f.description, parseAmount(f.targetAmount), 0.0,
                    f.kind, f.deadline, false, f.priority, now);
      (p.(goals := p.goals + [g], form := BlankForm, dialogOpen := false), Created(g))
  }

  /** A created goal is active: the active count grows by one and the
      completed count stays; with a positive target the new goal is also
      consistent. */
  lemma CreateCounts(p: Page, parseAmount: string -> real, freshId: string, now: int)
    ensures var (q, o) := CreateGoal(p, parseAmount, freshId, now);
      o.Created? ==>
        && ActiveCount(q.goals) == ActiveCount(p.goals) + 1
        && CompletedCount(q.goals) == CompletedCount(p.goals)
        && (AllConsistent(p.goals) && o.goal.targetAmount > 0.0 ==> AllConsistent(q.goals))
  {
    var (q, o) := CreateGoal(p, parseAmount, freshId, now);
    if o.Created? {
      FilterAppend(p.goals, [o.goal], IsDone);
      FilterAppend(p.goals, [o.goal], NotDone);
    }
  }
}
