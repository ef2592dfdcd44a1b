// Propositional literals, clauses and their meaning, shared by every part of the model.
// The solver encodes a literal as 2*var + sign (solver/types.go) and the checker as a non-zero
// integer; both are the pair (variable, polarity) here.
module Logic {

  datatype Lit = Lit(v: nat, pos: bool) {
    function Neg(): Lit { Lit(v, !pos) }
  }

  type Clause = seq<Lit>

  datatype Status = Indet | IsSat | IsUnsat

  // A clause up to the order of its literals: the solver permutes the literals of its clauses in place.
  type Bag = multiset<Lit>

  type Assignment = nat -> bool

  predicate Holds(l: Lit, a: Assignment) { a(l.v) == l.pos }

  ghost predicate Sat(c: Bag, a: Assignment) { exists l :: l in c && Holds(l, a) }

  ghost predicate Models(a: Assignment, f: set<Bag>) { forall c :: c in f ==> Sat(c, a) }

  ghost predicate Entails(f: set<Bag>, c: Bag) { forall a: Assignment :: Models(a, f) ==> Sat(c, a) }

  ghost predicate Unsatisfiable(f: set<Bag>) { forall a: Assignment :: !Models(a, f) }

  ghost predicate AllHold(s: set<Lit>, a: Assignment) { forall l :: l in s ==> Holds(l, a) }

  function Elems<T>(s: seq<T>): set<T> { set x | x in s }

  ghost function Bags(cs: seq<Clause>): set<Bag> { set c | c in cs :: multiset(c) }

  // No variable occurs twice: neither a duplicate nor a tautology.
  ghost predicate DistinctVars(c: Clause) { forall i, j :: 0 <= i < j < |c| ==> c[i].v != c[j].v }

  // A literal occurs twice in c.
  ghost predicate Repeats(c: Clause) { exists i, j :: 0 <= i < j < |c| && c[i] == c[j] }

  function AllLits(nbVars: nat): set<Lit> { set v, b | 0 <= v < nbVars && b in {true, false} :: Lit(v, b) }

  lemma BagsOf(cs: seq<Clause>, i: nat)
    requires i < |cs|
    ensures multiset(cs[i]) in Bags(cs)
  {
    assert cs[i] in cs;
  }

  lemma {:induction false} SubsetCard<T>(a: set<T>, b: set<T>)
    requires a <= b
    ensures |a| <= |b|
  {
    if a != {} {
      var x :| x in a;
      SubsetCard(a - {x}, b - {x});
    }
  }
}
