/** 0/1 programs as a modelling library sees them: affine rows over named binary variables.
    A point is the set of the variables that have value 1. */
module LinearProgram {
  import opened Keys

  datatype Term<V> = Term(coef: int, v: V)

  datatype Cmp = Le | Eq | Ge

  datatype Affine<V> = Affine(terms: seq<Term<V>>, offset: int)

  datatype Row<V> = Row(lhs: Affine<V>, cmp: Cmp, rhs: Affine<V>)

  function Val<V(==)>(point: set<V>, v: V): int {
    if v in point then 1 else 0
  }

  function Dot<V(==)>(terms: seq<Term<V>>, point: set<V>): int {
    if terms == [] then 0
    else terms[0].coef * Val(point, terms[0].v) + Dot(terms[1..], point)
  }

  function Eval<V(==)>(e: Affine<V>, point: set<V>): int {
    Dot(e.terms, point) + e.offset
  }

  predicate Sat<V(==)>(r: Row<V>, point: set<V>) {
    match r.cmp
    case Le => Eval(r.lhs, point) <= Eval(r.rhs, point)
    case Eq => Eval(r.lhs, point) == Eval(r.rhs, point)
    case Ge => Eval(r.lhs, point) >= Eval(r.rhs, point)
  }

  predicate Feasible<V(==)>(rows: set<Row<V>>, point: set<V>) {
    forall r :: r in rows ==> Sat(r, point)
  }

  /** The sum of some variables, every coefficient 1. */
  function Ones<V>(vs: seq<V>): (ts: seq<Term<V>>)
    ensures |ts| == |vs|
  {
    if vs == [] then [] else [Term(1, vs[0])] + Ones(vs[1..])
  }

  /** A sum of distinct variables is 0 exactly when none of them is 1, and 1 exactly when one of them is. */
  lemma {:induction false} OnesCount<V>(vs: seq<V>, point: set<V>)
    requires NoDup(vs)
    ensures Dot(Ones(vs), point) >= 0
    ensures Dot(Ones(vs), point) == 0 <==> forall v :: v in vs ==> v !in point
    ensures Dot(Ones(vs), point) <= 1 <==> forall u, v :: u in vs && v in vs && u in point && v in point ==> u == v
  {
    if vs != [] {
      NoDupTail(vs);
      OnesCount(vs[1..], point);
      assert Ones(vs)[1..] == Ones(vs[1..]);
      assert forall v :: v in vs <==> v == vs[0] || v in vs[1..];
    }
  }

  lemma {:induction false} DotConcat<V>(a: seq<Term<V>>, b: seq<Term<V>>, point: set<V>)
    ensures Dot(a + b, point) == Dot(a, point) + Dot(b, point)
  {
    if a == [] {
      assert a + b == b;
    } else {
      assert (a + b)[1..] == a[1..] + b;
      DotConcat(a[1..], b, point);
    }
  }

  lemma DotSingle<V>(t: Term<V>, point: set<V>)
    ensures Dot([t], point) == t.coef * Val(point, t.v)
  {
    assert [t][1..] == [];
  }
}
