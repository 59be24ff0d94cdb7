/** What a push answers: every row once, applied or rejected, with its own name and reason. */
module PushAnswers {
  import opened Prelude
  import opened Ledger

  /** How a row is named in the answer to a push. */
  datatype PushedEntity = AProduct | ASale | AMovement | AnExpense | AWithdrawal | ADeletion

  datatype PushedRow = PushedRow(entity: PushedEntity, id: Id)

  datatype RejectedRow = RejectedRow(row: PushedRow, error: Error)

  datatype Outcome = Outcome(applied: seq<PushedRow>, rejected: seq<RejectedRow>)

  function NameOf(row: Row): PushedRow
  {
    match row
    case ProductRow(r) => PushedRow(AProduct, r.id)
    case SaleRow(r) => PushedRow(ASale, r.id)
    case MovementRow(r) => PushedRow(AMovement, r.id)
    case ExpenseRow(r) => PushedRow(AnExpense, r.id)
    case WithdrawalRow(r) => PushedRow(AWithdrawal, r.id)
    case DeletionRow(r) => PushedRow(ADeletion, r.id)
  }

  function Noted(o: Outcome, row: Row, v: Verdict): Outcome
  {
    match v
    case Refused(e) => o.(rejected := o.rejected + [RejectedRow(NameOf(row), e)])
    case _ => o.(applied := o.applied + [NameOf(row)])
  }

  /** What a run of rows answers, noted one row after another. */
  function OutcomeOf(s: State, es: seq<Event>): Outcome
  {
    if es == [] then Outcome([], [])
    else
      var e := es[|es| - 1];
      var t := Run(s, es[..|es| - 1]);
      Noted(OutcomeOf(s, es[..|es| - 1]), e.row, VerdictOf(t, e))
  }

  lemma {:induction false} OutcomeNext(s: State, done: seq<Event>, store: Id, actor: Actor, rows: seq<Row>, i: nat)
    requires i < |rows|
    ensures var es := done + Events(store, actor, rows[..i]);
      var e := Event(store, actor, rows[i]);
      var grown := done + Events(store, actor, rows[..i + 1]);
      && Run(s, grown) == Apply(Run(s, es), e)
      && OutcomeOf(s, grown) == Noted(OutcomeOf(s, es), e.row, VerdictOf(Run(s, es), e))
  {
    var grown := done + Events(store, actor, rows[..i + 1]);
    assert grown[..|grown| - 1] == done + Events(store, actor, rows[..i]);
  }

  // ----- What the answer says -----

  /** The entry is of the row's own kind and carries its own id. */
  predicate Names(p: PushedRow, row: Row)
  {
    && (p.entity.AProduct? <==> row.ProductRow?) && (row.ProductRow? ==> p.id == row.product.id)
    && (p.entity.ASale? <==> row.SaleRow?) && (row.SaleRow? ==> p.id == row.sale.id)
    && (p.entity.AMovement? <==> row.MovementRow?) && (row.MovementRow? ==> p.id == row.movement.id)
    && (p.entity.AnExpense? <==> row.ExpenseRow?) && (row.ExpenseRow? ==> p.id == row.expense.id)
    && (p.entity.AWithdrawal? <==> row.WithdrawalRow?) && (row.WithdrawalRow? ==> p.id == row.withdrawal.id)
    && (p.entity.ADeletion? <==> row.DeletionRow?) && (row.DeletionRow? ==> p.id == row.deletion.id)
  }

  /** The `i`-th row of the run, tried on the state the rows before it left. */
  function VerdictAt(s: State, es: seq<Event>, i: nat): Verdict
    requires i < |es|
  {
    VerdictOf(Run(s, es[..i]), es[i])
  }

  function RefusedAmong(s: State, es: seq<Event>, n: nat): (k: nat)
    requires n <= |es|
    ensures k <= n
  {
    if n == 0 then 0 else RefusedAmong(s, es, n - 1) + (if VerdictAt(s, es, n - 1).Refused? then 1 else 0)
  }

  /** Row `i` stands in its list, behind those of the rows tried before it. */
  predicate StandsIn(o: Outcome, s: State, es: seq<Event>, i: nat)
    requires i < |es|
  {
    var k := RefusedAmong(s, es, i);
    match VerdictAt(s, es, i)
    case Refused(e) => k < |o.rejected| && Names(o.rejected[k].row, es[i].row) && o.rejected[k].error == e
    case _ => i - k < |o.applied| && Names(o.applied[i - k], es[i].row)
  }

  /** A refused row stands among the rejected with its error, any other among the applied, and nothing else does. */
  ghost predicate Answered(o: Outcome, s: State, es: seq<Event>)
  {
    && |o.applied| + |o.rejected| == |es| && |o.rejected| == RefusedAmong(s, es, |es|)
    && forall i :: 0 <= i < |es| ==> StandsIn(o, s, es, i)
  }

  lemma {:induction false} RefusedOfFront(s: State, es: seq<Event>, front: seq<Event>, n: nat)
    requires n <= |front| < |es| && front == es[..|front|]
    ensures RefusedAmong(s, es, n) == RefusedAmong(s, front, n)
  {
    if n > 0 {
      RefusedOfFront(s, es, front, n - 1);
      assert es[..n - 1] == front[..n - 1];
    }
  }

  lemma {:induction false} StandsAfterNext(o: Outcome, s: State, es: seq<Event>, front: seq<Event>, i: nat, v: Verdict)
    requires i < |front| < |es| && front == es[..|front|] && StandsIn(o, s, front, i)
    ensures StandsIn(Noted(o, es[|front|].row, v), s, es, i)
  {
    RefusedOfFront(s, es, front, i);
    assert es[..i] == front[..i];
  }

  lemma {:induction false} StandsLast(o: Outcome, s: State, es: seq<Event>, front: seq<Event>)
    requires |front| == |es| - 1 && front == es[..|front|] && Answered(o, s, front)
    ensures StandsIn(Noted(o, es[|front|].row, VerdictAt(s, es, |front|)), s, es, |front|)
  {
    RefusedOfFront(s, es, front, |front|);
  }

  lemma {:induction false} StandsNext(o: Outcome, s: State, es: seq<Event>, front: seq<Event>, i: nat)
    requires i < |es| == |front| + 1 && front == es[..|front|] && Answered(o, s, front)
    ensures StandsIn(Noted(o, es[|front|].row, VerdictAt(s, es, |front|)), s, es, i)
  {
    if i < |front| {
      StandsAfterNext(o, s, es, front, i, VerdictAt(s, es, |front|));
    } else {
      StandsLast(o, s, es, front);
    }
  }

  lemma {:induction false} AnsweredNext(o: Outcome, s: State, es: seq<Event>, front: seq<Event>)
    requires |front| == |es| - 1 && front == es[..|front|] && Answered(o, s, front)
    ensures Answered(Noted(o, es[|front|].row, VerdictAt(s, es, |front|)), s, es)
  {
    var n, v := |front|, VerdictAt(s, es, |front|);
    RefusedOfFront(s, es, front, n);
    forall i | 0 <= i < |es| ensures StandsIn(Noted(o, es[n].row, v), s, es, i) { StandsNext(o, s, es, front, i); }
  }

  /** The noted outcome answers every row. */
  lemma {:induction false} OutcomeAnswers(s: State, es: seq<Event>)
    ensures Answered(OutcomeOf(s, es), s, es)
  {
    if es != [] {
      var front := es[..|es| - 1];
      OutcomeAnswers(s, front);
      AnsweredNext(OutcomeOf(s, front), s, es, front);
    }
  }

  lemma {:induction false} SameName(p: PushedRow, q: PushedRow, row: Row)
    requires Names(p, row) && Names(q, row)
    ensures p == q
  {
  }

  /** Which row stands at a place of the two lists. */
  lemma {:induction false} RowBehind(s: State, es: seq<Event>, k: nat, refused: bool, n: nat) returns (i: nat)
    requires n <= |es| && k < if refused then RefusedAmong(s, es, n) else n - RefusedAmong(s, es, n)
    ensures i < n && VerdictAt(s, es, i).Refused? == refused
    ensures k == if refused then RefusedAmong(s, es, i) else i - RefusedAmong(s, es, i)
  {
    var before := RefusedAmong(s, es, n - 1);
    if k < if refused then before else n - 1 - before {
      i := RowBehind(s, es, k, refused, n - 1);
    } else {
      i := n - 1;
    }
  }

  /** That settles the answer: no other one answers every row. */
  lemma {:induction false} OnlyOneAnswer(o: Outcome, p: Outcome, s: State, es: seq<Event>)
    requires Answered(o, s, es) && Answered(p, s, es)
    ensures o == p
  {
    forall k | 0 <= k < |o.rejected| ensures o.rejected[k] == p.rejected[k] {
      var i := RowBehind(s, es, k, true, |es|);
      assert StandsIn(o, s, es, i) && StandsIn(p, s, es, i);
      SameName(o.rejected[k].row, p.rejected[k].row, es[i].row);
    }
    forall k | 0 <= k < |o.applied| ensures o.applied[k] == p.applied[k] {
      var i := RowBehind(s, es, k, false, |es|);
      assert StandsIn(o, s, es, i) && StandsIn(p, s, es, i);
      SameName(o.applied[k], p.applied[k], es[i].row);
    }
  }
}
