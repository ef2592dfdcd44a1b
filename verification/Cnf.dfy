// Translation of formulas in negation normal form to clauses: cnfRec with its variable table (bf/bf.go).
module Cnf {
  import opened BoolFormula

  // What a number of the clauses stands for: a variable of the formula or one made up on the way.
  datatype Key = Named(name: Name) | Dummy(id: int)

  type Table = map<Key, int>

  type IntClause = seq<int>

  // An assignment of the numbered variables.
  type Bits = int -> bool

  predicate LitTrue(x: int, b: Bits) { if x > 0 then b(x) else !b(-x) }

  ghost predicate ClauseTrue(c: IntClause, b: Bits) { exists x :: x in c && LitTrue(x, b) }

  ghost predicate AllClauses(cs: seq<IntClause>, b: Bits) { forall c :: c in cs ==> ClauseTrue(c, b) }

  // The valuation of the formula's variables under the numbering t.
  function Read(t: Table, b: Bits): Valuation { v => Named(v) in t && b(t[Named(v)]) }

  // The numbers given are 1, 2, ... without repetition, and a dummy is named after its number.
  ghost predicate TableOk(t: Table)
  {
    (forall k :: k in t ==> 1 <= t[k] <= |t|) && (forall k, l :: k in t && l in t && k != l ==> t[k] != t[l])
    && forall i :: Dummy(i) in t ==> t[Dummy(i)] == i
  }

  // Numbers once given stay, and new ones are new.
  ghost predicate Grown(t: Table, t': Table)
  {
    |t| <= |t'| && (forall k :: k in t ==> k in t' && t'[k] == t[k]) && forall k :: k in t' && k !in t ==> t'[k] > |t|
  }

  // ----- the translation -----

  function WithName(t: Table, v: Name): Table { if Named(v) in t then t else t[Named(v) := |t| + 1] }

  function WithDummy(t: Table): Table { t[Dummy(|t| + 1) := |t| + 1] }

  function Signed(v: Name, signed: bool, t: Table): int
    requires Named(v) in t
  {
    if signed then -t[Named(v)] else t[Named(v)]
  }

  // The clauses of f and the table they leave.
  function CnfOf(f: Formula, t: Table): (seq<IntClause>, Table)
    decreases f, 1, 0
  {
    match f
    case Literal(v, signed) => ([[Signed(v, signed, WithName(t, v))]], WithName(t, v))
    case And(subs) => AndOf(f, |subs|, t)
    case Or(subs) => var (res, lits, t') := OrOf(f, |subs|, t); (res + [lits], t')
    case Top => ([], t)
    case _ => ([[]], t)
  }

  // The first k members of a conjunction.
  function AndOf(f: Formula, k: nat, t: Table): (seq<IntClause>, Table)
    requires f.And? && k <= |f.subs|
    decreases f, 0, k
  {
    if k == 0 then ([], t)
    else
      var (cs, t1) := AndOf(f, k - 1, t);
      var (ds, t2) := CnfOf(f.subs[k - 1], t1);
      (cs + ds, t2)
  }

  // The first k members of a disjunction: clauses about the conjunctions among them, and the literals of the
  // disjunction itself, a dummy for each conjunction.
  function OrOf(f: Formula, k: nat, t: Table): (seq<IntClause>, IntClause, Table)
    requires f.Or? && k <= |f.subs|
    decreases f, 0, k
  {
    if k == 0 then ([], [], t)
    else
      var (res, lits, t1) := OrOf(f, k - 1, t);
      match f.subs[k - 1]
      case Literal(v, signed) => (res, lits + [Signed(v, signed, WithName(t1, v))], WithName(t1, v))
      case And(subs) =>
        var d := |t1| + 1;
        var (gs, t2) := GuardOf(f.subs[k - 1], |subs|, d, WithDummy(t1));
        (res + gs, lits + [d], t2)
      case _ => (res, lits, t1)
  }

  // The first j members of a conjunction under the dummy d. Only the first clause of each member gets -d.
  function GuardOf(g: Formula, j: nat, d: int, t: Table): (seq<IntClause>, Table)
    requires g.And? && j <= |g.subs|
    decreases g, 0, j
  {
    if j == 0 then ([], t)
    else
      var (gs, t1) := GuardOf(g, j - 1, d, t);
      var (cs, t2) := CnfOf(g.subs[j - 1], t1);
      (gs + Guarded(cs, d), t2)
  }

  function Guarded(cs: seq<IntClause>, d: int): seq<IntClause> { if cs == [] then [] else cs[0 := cs[0] + [-d]] }

  // ----- the table -----

  class Vars {
    var all: Table
    var pb: map<Name, int>

    constructor ()
      ensures Valid() && all == map[] && fresh(this)
    {
      all, pb := map[], map[];
    }

    ghost predicate Valid()
      reads this
    {
      TableOk(all) && (forall v :: v in pb <==> Named(v) in all) && forall v :: v in pb ==> pb[v] == all[Named(v)]
    }

    // litValue: the signed number of a variable of the formula, given on first use.
    method LitValue(v: Name, signed: bool) returns (x: int)
      requires Valid()
      modifies this
      ensures Valid() && all == WithName(old(all), v) && Named(v) in all && x == Signed(v, signed, all)
    {
      if Named(v) !in all {
        var val := |all| + 1;
        all := all[Named(v) := val];
        pb := pb[v := val];
      }
      x := if signed then -all[Named(v)] else all[Named(v)];
    }

    // dummy: a number for a variable made up on the way.
    method NewDummy() returns (d: int)
      requires Valid()
      modifies this
      ensures Valid() && all == WithDummy(old(all)) && d == |old(all)| + 1 && Dummy(d) !in old(all)
    {
      d := |all| + 1;
      all := all[Dummy(d) := d];
    }
  }

  lemma {:induction false} HasClauses(f: Formula, t: Table)
    requires Core(f)
    ensures CnfOf(f, t).0 != []
    decreases f
  {
    if f.And? {
      var n := |f.subs|;
      HasClauses(f.subs[n - 1], AndOf(f, n - 1, t).1);
    }
  }

  // litValue and dummy give the numbers of the tables above.
  method CnfRec(f: Formula, vars: Vars) returns (cs: seq<IntClause>)
    requires vars.Valid() && Normal(f)
    modifies vars
    ensures vars.Valid() && (cs, vars.all) == CnfOf(f, old(vars.all))
    decreases f, 2
  {
    match f {
      case Literal(v, signed) =>
        var x := vars.LitValue(v, signed);
        cs := [[x]];
      case And(subs) =>
        cs := [];
        for k := 0 to |subs|
          invariant vars.Valid() && (cs, vars.all) == AndOf(f, k, old(vars.all))
        {
          var ds := CnfRec(subs[k], vars);
          cs := cs + ds;
        }
      case Or(subs) =>
        var res, lits := OrMembers(f, vars);
        cs := res + [lits];
      case Top =>
        cs := [];
      case Bottom =>
        cs := [[]];
    }
  }

  // The literals of a disjunction, a dummy for each conjunction in it, and the clauses of those.
  method OrMembers(f: Formula, vars: Vars) returns (res: seq<IntClause>, lits: IntClause)
    requires vars.Valid() && Normal(f) && f.Or?
    modifies vars
    ensures vars.Valid() && (res, lits, vars.all) == OrOf(f, |f.subs|, old(vars.all))
    decreases f, 1
  {
    hide TableOk;
    res, lits := [], [];
    for k := 0 to |f.subs|
      invariant vars.Valid() && (res, lits, vars.all) == OrOf(f, k, old(vars.all))
    {
      match f.subs[k] {
        case Literal(v, signed) =>
          var x := vars.LitValue(v, signed);
          lits := lits + [x];
        case And(subs) =>
          var d := vars.NewDummy();
          lits := lits + [d];
          var gs := GuardAll(f.subs[k], d, vars);
          res := res + gs;
        case _ =>
      }
    }
  }

  // The clauses of a conjunction below a disjunction, the first of each member weakened by -d.
  method GuardAll(g: Formula, d: int, vars: Vars) returns (gs: seq<IntClause>)
    requires vars.Valid() && Core(g) && g.And?
    modifies vars
    ensures vars.Valid() && (gs, vars.all) == GuardOf(g, |g.subs|, d, old(vars.all))
    decreases g, 0
  {
    hide TableOk;
    gs := [];
    for j := 0 to |g.subs|
      invariant vars.Valid() && (gs, vars.all) == GuardOf(g, j, d, old(vars.all))
    {
      HasClauses(g.subs[j], vars.all);
      var cnf := CnfRec(g.subs[j], vars);
      cnf := cnf[0 := cnf[0] + [-d]];
      gs := gs + cnf;
    }
  }
}
