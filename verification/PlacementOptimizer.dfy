/** Which app runs on which cluster, and which device each cluster provides: the search problem, its compilation
    to a 0/1 program, and the decoding of a solved program into placements and policy bindings. */
module PlacementOptimizer {
  import opened Keys
  import opened LinearProgram

  /** The tables the program is built from. The sequences are the iteration orders of three sets. */
  datatype Problem = Problem(
    apps: seq<string>,
    clusters: seq<string>,
    devices: seq<string>,
    request: map<string, int>,
    capacity: map<(string, string), int>,
    preference: map<(string, string, string), int>)

  ghost predicate WellFormed(p: Problem) {
    && NoDup(p.apps) && NoDup(p.clusters) && NoDup(p.devices)
    && (forall a :: a in p.apps ==> a in p.request)
    && (forall a, c, d :: a in p.apps && c in p.clusters && d in p.devices ==> (a, c, d) in p.preference)
  }

  function Capacity(p: Problem, c: string, d: string): int {
    if (c, d) in p.capacity then p.capacity[(c, d)] else 0
  }

  // ---------------------------------------------------------------------------------------------
  // The problem itself
  // ---------------------------------------------------------------------------------------------

  /** Where each placed app runs, and the device each cluster provides. Both are partial. */
  datatype Assignment = Assignment(host: map<string, string>, device: map<string, string>)

  /** Total request of the listed apps that run on `c`. */
  ghost function Load(p: Problem, s: Assignment, apps: seq<string>, c: string): int
    requires forall a :: a in apps ==> a in p.request
  {
    if apps == [] then 0
    else (if apps[0] in s.host && s.host[apps[0]] == c then p.request[apps[0]] else 0) + Load(p, s, apps[1..], c)
  }

  ghost predicate ValidAssignment(p: Problem, s: Assignment)
    requires WellFormed(p)
  {
    && (forall a :: a in s.host ==> a in p.apps && s.host[a] in p.clusters && s.host[a] in s.device)
    && (forall c :: c in s.device ==>
          && c in p.clusters && s.device[c] in p.devices
          && Load(p, s, p.apps, c) <= Capacity(p, c, s.device[c]))
  }

  /** In an assignment apps are on known clusters with a known device, and their requests there add up to no more than
      the table allows for that device, or to nothing where the table has no entry. */
  lemma ValidAssignmentIs(p: Problem, s: Assignment)
    requires WellFormed(p)
    ensures ValidAssignment(p, s) <==>
              && (forall a :: a in s.host ==> a in p.apps && s.host[a] in p.clusters && s.host[a] in s.device)
              && (forall c :: c in s.device ==> c in p.clusters && s.device[c] in p.devices)
              && (forall c :: c in s.device ==>
                    Load(p, s, p.apps, c) <= if (c, s.device[c]) in p.capacity then p.capacity[(c, s.device[c])] else 0)
  {
  }

  /** Sum of the preferences of the listed apps that are placed. */
  ghost function Preference(p: Problem, s: Assignment, apps: seq<string>): int
    requires WellFormed(p) && ValidAssignment(p, s)
    requires forall a :: a in apps ==> a in p.apps
  {
    if apps == [] then 0
    else
      (if apps[0] in s.host then p.preference[(apps[0], s.host[apps[0]], s.device[s.host[apps[0]]])] else 0)
      + Preference(p, s, apps[1..])
  }

  // ---------------------------------------------------------------------------------------------
  // The 0/1 program
  // ---------------------------------------------------------------------------------------------

  datatype Var =
    | X(app: string, cluster: string)
    | Y(cluster: string, device: string)
    | Z(app: string, cluster: string, device: string)

  function VarAffine(v: Var): Affine<Var> { Affine([Term(1, v)], 0) }

  function YVars(c: string, ds: seq<string>): seq<Var> {
    seq(|ds|, i requires 0 <= i < |ds| => Y(c, ds[i]))
  }

  function XVars(a: string, cs: seq<string>): seq<Var> {
    seq(|cs|, i requires 0 <= i < |cs| => X(a, cs[i]))
  }

  function ZVars(a: string, c: string, ds: seq<string>): seq<Var> {
    seq(|ds|, i requires 0 <= i < |ds| => Z(a, c, ds[i]))
  }

  function RequestTerms(p: Problem, apps: seq<string>, c: string, d: string): seq<Term<Var>>
    requires forall a :: a in apps ==> a in p.request
  {
    if apps == [] then []
    else [Term(p.request[apps[0]], Z(apps[0], c, d))] + RequestTerms(p, apps[1..], c, d)
  }

  function OneDevice(p: Problem, c: string): Row<Var> {
    Row(Affine(Ones(YVars(c, p.devices)), 0), Le, Affine([], 1))
  }

  function OneCluster(p: Problem, a: string): Row<Var> {
    Row(Affine(Ones(XVars(a, p.clusters)), 0), Le, Affine([], 1))
  }

  function Fits(p: Problem, c: string, d: string): Row<Var>
    requires forall a :: a in p.apps ==> a in p.request
  {
    Row(Affine(RequestTerms(p, p.apps, c, d), 0), Le, Affine([Term(Capacity(p, c, d), Y(c, d))], 0))
  }

  function LinkX(a: string, c: string, d: string): Row<Var> {
    Row(VarAffine(Z(a, c, d)), Le, VarAffine(X(a, c)))
  }

  function LinkY(a: string, c: string, d: string): Row<Var> {
    Row(VarAffine(Z(a, c, d)), Le, VarAffine(Y(c, d)))
  }

  function LinkBoth(a: string, c: string, d: string): Row<Var> {
    Row(VarAffine(Z(a, c, d)), Ge, Affine([Term(1, X(a, c)), Term(1, Y(c, d))], -1))
  }

  function Split(p: Problem, a: string, c: string): Row<Var> {
    Row(VarAffine(X(a, c)), Eq, Affine(Ones(ZVars(a, c, p.devices)), 0))
  }

  ghost function Vars(p: Problem): set<Var> {
    (set a, c | a in p.apps && c in p.clusters :: X(a, c))
    + (set c, d | c in p.clusters && d in p.devices :: Y(c, d))
    + (set a, c, d | a in p.apps && c in p.clusters && d in p.devices :: Z(a, c, d))
  }

  function DeviceRows(p: Problem): set<Row<Var>> {
    set c | c in p.clusters :: OneDevice(p, c)
  }

  function ClusterRows(p: Problem): set<Row<Var>> {
    set a | a in p.apps :: OneCluster(p, a)
  }

  function FitRows(p: Problem): set<Row<Var>>
    requires forall a :: a in p.apps ==> a in p.request
  {
    set c, d | c in p.clusters && d in p.devices :: Fits(p, c, d)
  }

  function LinkRows(p: Problem): set<Row<Var>> {
    (set a, c, d | a in p.apps && c in p.clusters && d in p.devices :: LinkX(a, c, d))
    + (set a, c, d | a in p.apps && c in p.clusters && d in p.devices :: LinkY(a, c, d))
    + (set a, c, d | a in p.apps && c in p.clusters && d in p.devices :: LinkBoth(a, c, d))
  }

  function SplitRows(p: Problem): set<Row<Var>> {
    set a, c | a in p.apps && c in p.clusters :: Split(p, a, c)
  }

  /** The rows of the program, as a set. */
  function Rows(p: Problem): set<Row<Var>>
    requires forall a :: a in p.apps ==> a in p.request
  {
    DeviceRows(p) + ClusterRows(p) + FitRows(p) + LinkRows(p) + SplitRows(p)
  }

  function DeviceTerms(p: Problem, a: string, c: string, ds: seq<string>): seq<Term<Var>>
    requires forall d :: d in ds ==> (a, c, d) in p.preference
  {
    if ds == [] then []
    else [Term(p.preference[(a, c, ds[0])], Z(a, c, ds[0]))] + DeviceTerms(p, a, c, ds[1..])
  }

  function ClusterTerms(p: Problem, a: string, cs: seq<string>): seq<Term<Var>>
    requires forall c, d :: c in cs && d in p.devices ==> (a, c, d) in p.preference
  {
    if cs == [] then [] else DeviceTerms(p, a, cs[0], p.devices) + ClusterTerms(p, a, cs[1..])
  }

  function ObjectiveTerms(p: Problem, apps: seq<string>): seq<Term<Var>>
    requires forall a, c, d :: a in apps && c in p.clusters && d in p.devices ==> (a, c, d) in p.preference
  {
    if apps == [] then [] else ClusterTerms(p, apps[0], p.clusters) + ObjectiveTerms(p, apps[1..])
  }

  ghost function Objective(p: Problem, point: set<Var>): int
    requires WellFormed(p)
  {
    Dot(ObjectiveTerms(p, p.apps), point)
  }

  // ---------------------------------------------------------------------------------------------
  // What the rows say
  // ---------------------------------------------------------------------------------------------

  lemma AtMostOneDevice(p: Problem, c: string, point: set<Var>)
    requires WellFormed(p)
    ensures Sat(OneDevice(p, c), point) <==>
            forall d, e :: d in p.devices && e in p.devices && Y(c, d) in point && Y(c, e) in point ==> d == e
  {
    var vs := YVars(c, p.devices);
    OnesCount(vs, point);
    assert forall d :: d in p.devices ==> Y(c, d) in vs by {
      forall d | d in p.devices ensures Y(c, d) in vs {
        var i :| 0 <= i < |p.devices| && p.devices[i] == d;
        assert vs[i] == Y(c, d);
      }
    }
  }

  lemma AtMostOneCluster(p: Problem, a: string, point: set<Var>)
    requires WellFormed(p)
    ensures Sat(OneCluster(p, a), point) <==>
            forall c, e :: c in p.clusters && e in p.clusters && X(a, c) in point && X(a, e) in point ==> c == e
  {
    var vs := XVars(a, p.clusters);
    OnesCount(vs, point);
    assert forall c :: c in p.clusters ==> X(a, c) in vs by {
      forall c | c in p.clusters ensures X(a, c) in vs {
        var i :| 0 <= i < |p.clusters| && p.clusters[i] == c;
        assert vs[i] == X(a, c);
      }
    }
  }

  lemma SplitMeaning(p: Problem, a: string, c: string, point: set<Var>)
    requires WellFormed(p)
    requires forall d, e :: d in p.devices && e in p.devices && Z(a, c, d) in point && Z(a, c, e) in point ==> d == e
    ensures Sat(Split(p, a, c), point) <==> (X(a, c) in point <==> exists d :: d in p.devices && Z(a, c, d) in point)
  {
    var vs := ZVars(a, c, p.devices);
    OnesCount(vs, point);
    DotSingle(Term(1, X(a, c)), point);
    assert forall d :: d in p.devices ==> Z(a, c, d) in vs by {
      forall d | d in p.devices ensures Z(a, c, d) in vs {
        var i :| 0 <= i < |p.devices| && p.devices[i] == d;
        assert vs[i] == Z(a, c, d);
      }
    }
  }

  lemma LinkMeaning(a: string, c: string, d: string, point: set<Var>)
    ensures Sat(LinkX(a, c, d), point) && Sat(LinkY(a, c, d), point) && Sat(LinkBoth(a, c, d), point)
            <==> (Z(a, c, d) in point <==> X(a, c) in point && Y(c, d) in point)
  {
    DotSingle(Term(1, X(a, c)), point);
    DotSingle(Term(1, Y(c, d)), point);
    DotSingle(Term(1, Z(a, c, d)), point);
    DotConcat([Term(1, X(a, c))], [Term(1, Y(c, d))], point);
    assert [Term(1, X(a, c))] + [Term(1, Y(c, d))] == [Term(1, X(a, c)), Term(1, Y(c, d))];
  }

  /** The capacity row counts exactly the load, once z is the conjunction of x and y. */
  lemma {:induction false} RequestDot(p: Problem, s: Assignment, apps: seq<string>, c: string, d: string,
                                      point: set<Var>)
    requires forall a :: a in apps ==> a in p.request
    requires forall a :: a in apps ==> (Z(a, c, d) in point <==> a in s.host && s.host[a] == c)
    ensures Dot(RequestTerms(p, apps, c, d), point) == Load(p, s, apps, c)
  {
    if apps != [] {
      RequestDot(p, s, apps[1..], c, d, point);
      assert RequestTerms(p, apps, c, d)[1..] == RequestTerms(p, apps[1..], c, d);
    }
  }

  lemma {:induction false} RequestDotZero(p: Problem, apps: seq<string>, c: string, d: string, point: set<Var>)
    requires forall a :: a in apps ==> a in p.request
    requires forall a :: a in apps ==> Z(a, c, d) !in point
    ensures Dot(RequestTerms(p, apps, c, d), point) == 0
  {
    if apps != [] {
      RequestDotZero(p, apps[1..], c, d, point);
      assert RequestTerms(p, apps, c, d)[1..] == RequestTerms(p, apps[1..], c, d);
    }
  }

  /** The rows, read as clauses about the point. */
  ghost predicate Admissible(p: Problem, point: set<Var>)
    requires WellFormed(p)
  {
    && (forall c, d, e ::
          c in p.clusters && d in p.devices && e in p.devices && Y(c, d) in point && Y(c, e) in point ==> d == e)
    && (forall a, c, e ::
          a in p.apps && c in p.clusters && e in p.clusters && X(a, c) in point && X(a, e) in point ==> c == e)
    && (forall c, d :: c in p.clusters && d in p.devices ==>
          Dot(RequestTerms(p, p.apps, c, d), point) <= Capacity(p, c, d) * Val(point, Y(c, d)))
    && (forall a, c, d :: a in p.apps && c in p.clusters && d in p.devices ==>
          (Z(a, c, d) in point <==> X(a, c) in point && Y(c, d) in point))
    && (forall a, c :: a in p.apps && c in p.clusters && X(a, c) in point ==>
          exists d :: d in p.devices && Y(c, d) in point)
  }

  lemma FitsMeaning(p: Problem, c: string, d: string, point: set<Var>)
    requires WellFormed(p)
    ensures Sat(Fits(p, c, d), point)
            <==> Dot(RequestTerms(p, p.apps, c, d), point) <= Capacity(p, c, d) * Val(point, Y(c, d))
  {
    DotSingle(Term(Capacity(p, c, d), Y(c, d)), point);
  }

  lemma FeasibleMeansAdmissible(p: Problem, point: set<Var>)
    requires WellFormed(p) && Feasible(Rows(p), point)
    ensures Admissible(p, point)
  {
    var rows := Rows(p);
    forall c | c in p.clusters ensures
        forall d, e :: d in p.devices && e in p.devices && Y(c, d) in point && Y(c, e) in point ==> d == e
    {
      assert OneDevice(p, c) in rows;
      AtMostOneDevice(p, c, point);
    }
    forall a | a in p.apps ensures
        forall c, e :: c in p.clusters && e in p.clusters && X(a, c) in point && X(a, e) in point ==> c == e
    {
      assert OneCluster(p, a) in rows;
      AtMostOneCluster(p, a, point);
    }
    forall c, d | c in p.clusters && d in p.devices ensures
        Dot(RequestTerms(p, p.apps, c, d), point) <= Capacity(p, c, d) * Val(point, Y(c, d))
    {
      assert Fits(p, c, d) in rows;
      FitsMeaning(p, c, d, point);
    }
    forall a, c, d | a in p.apps && c in p.clusters && d in p.devices ensures
        Z(a, c, d) in point <==> X(a, c) in point && Y(c, d) in point
    {
      assert LinkX(a, c, d) in rows && LinkY(a, c, d) in rows && LinkBoth(a, c, d) in rows;
      LinkMeaning(a, c, d, point);
    }
    forall a, c | a in p.apps && c in p.clusters && X(a, c) in point ensures
        exists d :: d in p.devices && Y(c, d) in point
    {
      assert Split(p, a, c) in rows;
      SplitMeaning(p, a, c, point);
    }
  }

  lemma AdmissibleMeansFeasible(p: Problem, point: set<Var>)
    requires WellFormed(p) && Admissible(p, point)
    ensures Feasible(Rows(p), point)
  {
    forall r | r in DeviceRows(p) ensures Sat(r, point) {
      var c :| c in p.clusters && r == OneDevice(p, c);
      AtMostOneDevice(p, c, point);
    }
    forall r | r in ClusterRows(p) ensures Sat(r, point) {
      var a :| a in p.apps && r == OneCluster(p, a);
      AtMostOneCluster(p, a, point);
    }
    forall r | r in FitRows(p) ensures Sat(r, point) {
      var c, d :| c in p.clusters && d in p.devices && r == Fits(p, c, d);
      FitsMeaning(p, c, d, point);
    }
    AdmissibleLinks(p, point);
    forall r | r in SplitRows(p) ensures Sat(r, point) {
      var a, c :| a in p.apps && c in p.clusters && r == Split(p, a, c);
      SplitMeaning(p, a, c, point);
    }
  }

  lemma AdmissibleLinks(p: Problem, point: set<Var>)
    requires WellFormed(p) && Admissible(p, point)
    ensures Feasible(LinkRows(p), point)
  {
    forall a, c, d | a in p.apps && c in p.clusters && d in p.devices
      ensures Sat(LinkX(a, c, d), point) && Sat(LinkY(a, c, d), point) && Sat(LinkBoth(a, c, d), point)
    {
      LinkMeaning(a, c, d, point);
    }
  }

  // ---------------------------------------------------------------------------------------------
  // Points and assignments are the same thing
  // ---------------------------------------------------------------------------------------------

  ghost function Encode(p: Problem, s: Assignment): set<Var>
    requires WellFormed(p) && ValidAssignment(p, s)
  {
    (set a | a in s.host :: X(a, s.host[a]))
    + (set c | c in s.device :: Y(c, s.device[c]))
    + (set a | a in s.host :: Z(a, s.host[a], s.device[s.host[a]]))
  }

  ghost function HostIn(p: Problem, point: set<Var>, a: string): string
    requires exists c :: c in p.clusters && X(a, c) in point
  {
    var c :| c in p.clusters && X(a, c) in point; c
  }

  ghost function DeviceIn(p: Problem, point: set<Var>, c: string): string
    requires exists d :: d in p.devices && Y(c, d) in point
  {
    var d :| d in p.devices && Y(c, d) in point; d
  }

  ghost function Decode(p: Problem, point: set<Var>): Assignment {
    Assignment(
      map a | a in p.apps && exists c :: c in p.clusters && X(a, c) in point :: HostIn(p, point, a),
      map c | c in p.clusters && exists d :: d in p.devices && Y(c, d) in point :: DeviceIn(p, point, c))
  }

  lemma EncodeMembers(p: Problem, s: Assignment)
    requires WellFormed(p) && ValidAssignment(p, s)
    ensures forall a, c :: X(a, c) in Encode(p, s) <==> a in s.host && s.host[a] == c
    ensures forall c, d :: Y(c, d) in Encode(p, s) <==> c in s.device && s.device[c] == d
    ensures forall a, c, d :: Z(a, c, d) in Encode(p, s) <==> a in s.host && s.host[a] == c && s.device[c] == d
  {
  }

  lemma EncodeFits(p: Problem, s: Assignment, c: string, d: string)
    requires WellFormed(p) && ValidAssignment(p, s) && c in p.clusters && d in p.devices
    ensures Dot(RequestTerms(p, p.apps, c, d), Encode(p, s)) <= Capacity(p, c, d) * Val(Encode(p, s), Y(c, d))
  {
    EncodeMembers(p, s);
    if c in s.device && s.device[c] == d {
      RequestDot(p, s, p.apps, c, d, Encode(p, s));
    } else {
      RequestDotZero(p, p.apps, c, d, Encode(p, s));
    }
  }

  lemma EncodeIsAdmissible(p: Problem, s: Assignment)
    requires WellFormed(p) && ValidAssignment(p, s)
    ensures Encode(p, s) <= Vars(p) && Admissible(p, Encode(p, s))
  {
    var point := Encode(p, s);
    EncodeMembers(p, s);
    forall c, d | c in p.clusters && d in p.devices
      ensures Dot(RequestTerms(p, p.apps, c, d), point) <= Capacity(p, c, d) * Val(point, Y(c, d))
    {
      EncodeFits(p, s, c, d);
    }
    forall a, c | a in p.apps && c in p.clusters && X(a, c) in point
      ensures exists d :: d in p.devices && Y(c, d) in point
    {
      assert Y(c, s.device[c]) in point;
    }
  }

  /** Every valid assignment is a feasible point, and decoding that point gives the assignment back. */
  lemma EncodeIsFeasible(p: Problem, s: Assignment)
    requires WellFormed(p) && ValidAssignment(p, s)
    ensures Encode(p, s) <= Vars(p)
    ensures Feasible(Rows(p), Encode(p, s))
    ensures Decode(p, Encode(p, s)) == s
  {
    var point := Encode(p, s);
    EncodeIsAdmissible(p, s);
    AdmissibleMeansFeasible(p, point);
    DecodeEncode(p, s);
  }

  lemma DecodeEncode(p: Problem, s: Assignment)
    requires WellFormed(p) && ValidAssignment(p, s)
    ensures Decode(p, Encode(p, s)) == s
  {
    var point := Encode(p, s);
    EncodeMembers(p, s);
    var t := Decode(p, point);
    forall a | a in s.host ensures a in t.host && t.host[a] == s.host[a] {
      assert X(a, s.host[a]) in point;
    }
    forall c | c in s.device ensures c in t.device && t.device[c] == s.device[c] {
      assert Y(c, s.device[c]) in point;
    }
    assert t.host == s.host && t.device == s.device;
  }

  lemma DecodeMembers(p: Problem, point: set<Var>)
    requires WellFormed(p) && Admissible(p, point) && point <= Vars(p)
    ensures forall a, c :: X(a, c) in point <==> a in Decode(p, point).host && Decode(p, point).host[a] == c
    ensures forall c, d :: Y(c, d) in point <==> c in Decode(p, point).device && Decode(p, point).device[c] == d
  {
    var s := Decode(p, point);
    forall a, c ensures X(a, c) in point <==> a in s.host && s.host[a] == c {
      if X(a, c) in point {
        assert X(a, c) in Vars(p);
        assert a in p.apps && c in p.clusters;
      }
    }
    forall c, d ensures Y(c, d) in point <==> c in s.device && s.device[c] == d {
      if Y(c, d) in point {
        assert Y(c, d) in Vars(p);
        assert c in p.clusters && d in p.devices;
      }
    }
  }

  lemma DecodedAppsAreHosted(p: Problem, point: set<Var>, a: string)
    requires WellFormed(p) && point <= Vars(p) && Admissible(p, point)
    requires a in Decode(p, point).host
    ensures Decode(p, point).host[a] in Decode(p, point).device
  {
    DecodeMembers(p, point);
    var c := Decode(p, point).host[a];
    assert X(a, c) in point;
    var d :| d in p.devices && Y(c, d) in point;
  }

  lemma DecodedLoadFits(p: Problem, point: set<Var>, c: string)
    requires WellFormed(p) && point <= Vars(p) && Admissible(p, point)
    requires c in Decode(p, point).device
    ensures Load(p, Decode(p, point), p.apps, c) <= Capacity(p, c, Decode(p, point).device[c])
  {
    DecodeMembers(p, point);
    var s := Decode(p, point);
    assert Y(c, s.device[c]) in point;
    RequestDot(p, s, p.apps, c, s.device[c], point);
  }

  lemma EncodeDecode(p: Problem, point: set<Var>)
    requires WellFormed(p) && point <= Vars(p) && Admissible(p, point)
    requires ValidAssignment(p, Decode(p, point))
    ensures Encode(p, Decode(p, point)) == point
  {
    DecodeMembers(p, point);
    var s := Decode(p, point);
    EncodeMembers(p, s);
    forall v ensures v in Encode(p, s) <==> v in point {
      if v.Z? && v in point {
        assert v in Vars(p);
      }
    }
  }

  /** Every feasible point is the encoding of a valid assignment. */
  lemma DecodeIsValid(p: Problem, point: set<Var>)
    requires WellFormed(p) && point <= Vars(p) && Feasible(Rows(p), point)
    ensures ValidAssignment(p, Decode(p, point))
    ensures Encode(p, Decode(p, point)) == point
  {
    FeasibleMeansAdmissible(p, point);
    var s := Decode(p, point);
    forall a | a in s.host ensures s.host[a] in s.device {
      DecodedAppsAreHosted(p, point, a);
    }
    forall c | c in s.device ensures Load(p, s, p.apps, c) <= Capacity(p, c, s.device[c]) {
      DecodedLoadFits(p, point, c);
    }
    EncodeDecode(p, point);
  }

  // ---------------------------------------------------------------------------------------------
  // The objective
  // ---------------------------------------------------------------------------------------------

  lemma {:induction false} DeviceTermsDot(p: Problem, a: string, c: string, ds: seq<string>, point: set<Var>)
    requires NoDup(ds) && forall d :: d in ds ==> (a, c, d) in p.preference
    requires forall d, e :: d in ds && e in ds && Z(a, c, d) in point && Z(a, c, e) in point ==> d == e
    ensures (forall d :: d in ds ==> Z(a, c, d) !in point) ==> Dot(DeviceTerms(p, a, c, ds), point) == 0
    ensures forall d :: d in ds && Z(a, c, d) in point ==>
              Dot(DeviceTerms(p, a, c, ds), point) == p.preference[(a, c, d)]
  {
    if ds != [] {
      NoDupTail(ds);
      DeviceTermsDot(p, a, c, ds[1..], point);
      assert DeviceTerms(p, a, c, ds)[1..] == DeviceTerms(p, a, c, ds[1..]);
    }
  }

  lemma {:induction false} ClusterTermsDot(p: Problem, s: Assignment, a: string, cs: seq<string>)
    requires WellFormed(p) && ValidAssignment(p, s) && a in p.apps
    requires NoDup(cs) && forall c :: c in cs ==> c in p.clusters
    ensures Dot(ClusterTerms(p, a, cs), Encode(p, s))
            == if a in s.host && s.host[a] in cs then p.preference[(a, s.host[a], s.device[s.host[a]])] else 0
  {
    if cs != [] {
      NoDupTail(cs);
      EncodeMembers(p, s);
      DeviceTermsDot(p, a, cs[0], p.devices, Encode(p, s));
      ClusterTermsDot(p, s, a, cs[1..]);
      DotConcat(DeviceTerms(p, a, cs[0], p.devices), ClusterTerms(p, a, cs[1..]), Encode(p, s));
      if a in s.host && s.host[a] == cs[0] {
        assert Z(a, cs[0], s.device[cs[0]]) in Encode(p, s);
      }
    }
  }

  lemma {:induction false} ObjectiveDot(p: Problem, s: Assignment, apps: seq<string>)
    requires WellFormed(p) && ValidAssignment(p, s)
    requires forall a :: a in apps ==> a in p.apps
    ensures Dot(ObjectiveTerms(p, apps), Encode(p, s)) == Preference(p, s, apps)
  {
    if apps != [] {
      ClusterTermsDot(p, s, apps[0], p.clusters);
      ObjectiveDot(p, s, apps[1..]);
      DotConcat(ClusterTerms(p, apps[0], p.clusters), ObjectiveTerms(p, apps[1..]), Encode(p, s));
    }
  }

  ghost predicate OptimalPoint(p: Problem, point: set<Var>)
    requires WellFormed(p)
  {
    && point <= Vars(p) && Feasible(Rows(p), point)
    && forall other :: other <= Vars(p) && Feasible(Rows(p), other) ==> Objective(p, other) <= Objective(p, point)
  }

  ghost predicate BestAssignment(p: Problem, s: Assignment)
    requires WellFormed(p)
  {
    && ValidAssignment(p, s)
    && forall t :: ValidAssignment(p, t) ==> Preference(p, t, p.apps) <= Preference(p, s, p.apps)
  }

  /** Solving the 0/1 program to optimality is solving the assignment problem to optimality. */
  lemma OptimumIsBest(p: Problem, point: set<Var>)
    requires WellFormed(p) && point <= Vars(p) && Feasible(Rows(p), point)
    ensures OptimalPoint(p, point) <==> BestAssignment(p, Decode(p, point))
  {
    var s := Decode(p, point);
    DecodeIsValid(p, point);
    ObjectiveDot(p, s, p.apps);
    if OptimalPoint(p, point) {
      forall t | ValidAssignment(p, t) ensures Preference(p, t, p.apps) <= Preference(p, s, p.apps) {
        EncodeIsFeasible(p, t);
        ObjectiveDot(p, t, p.apps);
      }
    }
    if BestAssignment(p, s) {
      forall other | other <= Vars(p) && Feasible(Rows(p), other) ensures Objective(p, other) <= Objective(p, point) {
        DecodeIsValid(p, other);
        ObjectiveDot(p, Decode(p, other), p.apps);
      }
    }
  }
}
