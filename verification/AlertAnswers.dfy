/** What a request for alerts is answered, in its own terms, and that there is exactly one such answer. */
module AlertAnswers {
  import opened Options
  import opened AlertStore

  // -------------------------------------------------------------- requests spelled out

  /** A limit from 1 to 500 (50 if none is given), sensible cursors, at most one of them, and a short label. */
  predicate Valid(r: Request) {
    && 1 <= r.limit.GetOr(50) <= 500
    && (r.sinceId.Some? ==> r.sinceId.value >= 0)
    && (r.beforeId.Some? ==> r.beforeId.value >= 1)
    && (r.riskLabel.Some? ==> |r.riskLabel.value| <= 32)
    && (r.sinceId.None? || r.beforeId.None?)
  }

  /** The row is asked for: newer than the one cursor, older than the other, with the label. */
  predicate Wanted(r: Request, a: Alert) {
    && (r.sinceId.Some? ==> a.id > r.sinceId.value)
    && (r.beforeId.Some? ==> a.id < r.beforeId.value)
    && (r.riskLabel.Some? ==> a.riskLabel == r.riskLabel.value)
  }

  /** The one row comes before the other: the lower id when polling, the higher when scrolling, else the later row. */
  predicate ComesFirst(r: Request, a: Alert, b: Alert) {
    if r.sinceId.Some? then a.id < b.id
    else if r.beforeId.Some? then a.id > b.id
    else a.createdAt > b.createdAt || (a.createdAt == b.createdAt && a.id > b.id)
  }

  /** In that order the page holds rows that are wanted, and leaves one out only if it is full of rows before it. */
  ghost predicate AsWanted(rows: set<Alert>, r: Request, page: seq<Alert>) {
    && |page| <= r.limit.GetOr(50)
    && (forall i | 0 <= i < |page| :: page[i] in rows && Wanted(r, page[i]))
    && (forall i, j | 0 <= i < j < |page| :: ComesFirst(r, page[i], page[j]))
    && (forall a | a in rows && Wanted(r, a) && a !in page ::
          |page| == r.limit.GetOr(50) && forall i | 0 <= i < |page| :: ComesFirst(r, page[i], a))
  }

  lemma {:induction false} OrderAsAsked(r: Request, order: Order)
    requires Valid(r) && Plan(r).Select? && order == Plan(r).order
    ensures forall a, b :: Precedes(order, a, b) <==> ComesFirst(r, a, b)
  {
  }

  lemma {:induction false} SelectionAsAsked(rows: set<Alert>, r: Request, selection: set<Alert>)
    requires Valid(r) && Plan(r).Select? && selection == Matching(rows, Plan(r).above, Plan(r).below, Plan(r).risk)
    ensures forall a :: a in selection <==> a in rows && Wanted(r, a)
  {
  }

  lemma {:induction false} PageAsAsked(selection: set<Alert>, order: Order, limit: nat, page: seq<Alert>,
      rows: set<Alert>, r: Request)
    requires forall a, b :: Precedes(order, a, b) <==> ComesFirst(r, a, b)
    requires forall a :: a in selection <==> a in rows && Wanted(r, a)
    requires limit == r.limit.GetOr(50)
    ensures Page(selection, order, limit, page) <==> AsWanted(rows, r, page)
  {
    if Page(selection, order, limit, page) {
      assert Sorted(order, page);
      forall i, j | 0 <= i < j < |page|
        ensures ComesFirst(r, page[i], page[j])
      {
        assert Precedes(order, page[i], page[j]);
      }
      forall a | a in rows && Wanted(r, a) && a !in page
        ensures |page| == limit && forall i | 0 <= i < |page| :: ComesFirst(r, page[i], a)
      {
        assert a in selection && AllPrecede(order, page, a);
      }
    }
    if AsWanted(rows, r, page) {
      assert Sorted(order, page);
      forall a | a in selection && a !in page
        ensures AllPrecede(order, page, a)
      {
      }
    }
  }

  /** A page answers a request exactly if the request is valid and the page is as wanted. */
  lemma {:induction false} AnsweredAsAsked(rows: set<Alert>, r: Request, page: seq<Alert>)
    ensures Answers(rows, r, page) <==> Valid(r) && AsWanted(rows, r, page)
  {
    if Valid(r) {
      var plan := Plan(r);
      OrderAsAsked(r, plan.order);
      SelectionAsAsked(rows, r, Matching(rows, plan.above, plan.below, plan.risk));
      PageAsAsked(Matching(rows, plan.above, plan.below, plan.risk), plan.order, plan.limit, page, rows, r);
    }
  }

  /**
    A risk label filters: the page holds rows with the label only, and asking with it is asking without it where
    only rows with the label are stored.
    */
  lemma {:induction false} LabelFilters(rows: set<Alert>, r: Request, risk: string, page: seq<Alert>)
    requires r.riskLabel == Some(risk)
    ensures Answers(rows, r, page) ==> forall i | 0 <= i < |page| :: page[i].riskLabel == risk
    ensures Answers(rows, r, page)
            <==> |risk| <= 32 && Answers((set a | a in rows && a.riskLabel == risk), r.(riskLabel := None), page)
  {
    var some := set a | a in rows && a.riskLabel == risk;
    AnsweredAsAsked(rows, r, page);
    AnsweredAsAsked(some, r.(riskLabel := None), page);
    assert forall a :: a in some && Wanted(r.(riskLabel := None), a) <==> a in rows && Wanted(r, a);
  }

  // ------------------------------------------------------------------ exactly one answer

  /** The row is in the selection and comes before every other one. */
  ghost predicate IsLeast(selection: set<Alert>, order: Order, least: Alert) {
    least in selection && forall a | a in selection && a != least :: Precedes(order, least, a)
  }

  lemma {:induction false} LeastWith(selection: set<Alert>, order: Order, x: Alert, y: Alert)
    requires UniqueIds(selection) && x in selection && IsLeast(selection - {x}, order, y)
    ensures IsLeast(selection, order, if Precedes(order, x, y) then x else y)
  {
    if Precedes(order, x, y) {
      forall a | a in selection && a != x && a != y
        ensures Precedes(order, x, a)
      {
        Transitive(order, x, y, a);
      }
    } else {
      assert x.id != y.id;
    }
  }

  lemma {:induction false} LeastExists(selection: set<Alert>, order: Order) returns (least: Alert)
    requires UniqueIds(selection) && selection != {}
    ensures IsLeast(selection, order, least)
    decreases |selection|
  {
    var x :| x in selection;
    if selection == {x} {
      least := x;
    } else {
      var y := LeastExists(selection - {x}, order);
      LeastWith(selection, order, x, y);
      least := if Precedes(order, x, y) then x else y;
    }
  }

  lemma {:induction false} PageWithLeast(selection: set<Alert>, order: Order, limit: nat, least: Alert,
      more: seq<Alert>)
    requires limit >= 1 && IsLeast(selection, order, least)
    requires Page(selection - {least}, order, limit - 1, more)
    ensures Page(selection, order, limit, [least] + more)
  {
    var page := [least] + more;
    forall a | a in selection && a !in page
      ensures |page| == limit && AllPrecede(order, page, a)
    {
      assert a in selection - {least} && a !in more;
    }
  }

  lemma {:induction false} PageExists(selection: set<Alert>, order: Order, limit: nat) returns (page: seq<Alert>)
    requires UniqueIds(selection)
    ensures Page(selection, order, limit, page)
    decreases limit
  {
    if limit == 0 || selection == {} {
      page := [];
    } else {
      var least := LeastExists(selection, order);
      var more := PageExists(selection - {least}, order, limit - 1);
      PageWithLeast(selection, order, limit, least, more);
      page := [least] + more;
    }
  }

  lemma {:induction false} SameNext(order: Order, p: seq<Alert>, q: seq<Alert>, i: nat)
    requires Sorted(order, p) && Sorted(order, q) && i < |p| && i < |q| && p[..i] == q[..i]
    requires p[i] in q && q[i] in p
    ensures p[i] == q[i]
  {
    var j :| 0 <= j < |q| && q[j] == p[i];
    var k :| 0 <= k < |p| && p[k] == q[i];
  }

  lemma {:induction false} SameUpto(selection: set<Alert>, order: Order, limit: nat, p: seq<Alert>, q: seq<Alert>,
      n: nat)
    requires UniqueIds(selection) && Page(selection, order, limit, p) && Page(selection, order, limit, q)
    requires n <= |p| && n <= |q|
    ensures p[..n] == q[..n]
  {
    if n > 0 {
      var i := n - 1;
      SameUpto(selection, order, limit, p, q, i);
      OnPageIffRankedIn(selection, order, limit, p, p[i]);
      OnPageIffRankedIn(selection, order, limit, q, p[i]);
      OnPageIffRankedIn(selection, order, limit, p, q[i]);
      OnPageIffRankedIn(selection, order, limit, q, q[i]);
      SameNext(order, p, q, i);
      assert p[..n] == p[..i] + [p[i]] && q[..n] == q[..i] + [q[i]];
    }
  }

  lemma {:induction false} PageIsUnique(selection: set<Alert>, order: Order, limit: nat, p: seq<Alert>, q: seq<Alert>)
    requires UniqueIds(selection) && Page(selection, order, limit, p) && Page(selection, order, limit, q)
    ensures p == q
  {
    PageLength(selection, order, limit, p);
    PageLength(selection, order, limit, q);
    SameUpto(selection, order, limit, p, q, |p|);
    assert p[..|p|] == p && q[..|p|] == q;
  }

  /** Every valid request has an answer, no other has, and there is only one. */
  lemma {:induction false} ExactlyOneAnswer(rows: set<Alert>, r: Request)
    requires UniqueIds(rows)
    ensures Valid(r) <==> exists page :: Answers(rows, r, page)
    ensures forall p, q | Answers(rows, r, p) && Answers(rows, r, q) :: p == q
  {
    if Valid(r) {
      var plan := Plan(r);
      var page := PageExists(Matching(rows, plan.above, plan.below, plan.risk), plan.order, plan.limit);
      assert Answers(rows, r, page);
    }
    forall p, q | Answers(rows, r, p) && Answers(rows, r, q)
      ensures p == q
    {
      var plan := Plan(r);
      PageIsUnique(Matching(rows, plan.above, plan.below, plan.risk), plan.order, plan.limit, p, q);
    }
  }
}
