// The solver's bindings: signed decision levels, the trail, and the clause that forced each literal
// (the fields model, trail and reason of solver/solver.go).
module Bindings {
  import opened Logic

  datatype Option<+T> = None | Some(value: T)

  // For each variable 0 if it is free, lvl if it was made true at level lvl, -lvl if it was made false.
  type Model = seq<int>

  // A reason is the index of a clause in the clause arena.
  type Reasons = seq<Option<nat>>

  type Db = seq<Clause>

  predicate True(m: Model, l: Lit) { l.v < |m| && m[l.v] != 0 && (m[l.v] > 0) == l.pos }

  predicate False(m: Model, l: Lit) { l.v < |m| && m[l.v] != 0 && (m[l.v] > 0) != l.pos }

  function Level(m: Model, v: nat): nat { if v >= |m| then 0 else if m[v] < 0 then -m[v] else m[v] }

  function SignedLevel(l: Lit, lvl: int): int { if l.pos then lvl else -lvl }

  // Every binding of m is the one a makes.
  ghost predicate Follows(a: Assignment, m: Model) { forall v :: 0 <= v < |m| && m[v] != 0 ==> a(v) == (m[v] > 0) }

  function Swap<T>(s: seq<T>, i: nat, j: nat): (r: seq<T>)
    requires i < |s| && j < |s|
    ensures multiset(r) == multiset(s)
  {
    s[i := s[j]][j := s[i]]
  }

  // The trail lists what is bound, level by level. A unit clause given twice is twice on it, so that
  // literals of level 1 may occur again.
  ghost predicate TrailOk(m: Model, t: seq<Lit>)
  {
    (forall i :: 0 <= i < |t| ==> True(m, t[i]))
    && (forall i, j :: 0 <= i < j < |t| && Level(m, t[i].v) != 1 ==> t[i].v != t[j].v)
    && (forall i, j :: 0 <= i < j < |t| ==> Level(m, t[i].v) <= Level(m, t[j].v))
    && (forall l: Lit :: True(m, l) ==> l in t)
  }

  ghost predicate LevelsUpTo(m: Model, t: seq<Lit>, lvl: nat)
  {
    forall i :: 0 <= i < |t| ==> Level(m, t[i].v) <= lvl
  }

  ghost predicate LevelsBelow(m: Model, t: seq<Lit>, lvl: nat)
  {
    forall i :: 0 <= i < |t| ==> Level(m, t[i].v) < lvl
  }

  // c contains u and every other literal of c is false in the trail prefix p.
  ghost predicate Forces(c: Clause, p: seq<Lit>, u: Lit)
  {
    u in c && forall l :: l in c && l != u ==> l.Neg() in p
  }

  ghost predicate ReasonOk(m: Model, t: seq<Lit>, i: nat, r: Option<nat>, db: Db)
    requires i < |t|
  {
    match r
    case Some(c) => c < |db| && Forces(db[c], t[..i], t[i])
    case None => Level(m, t[i].v) == 1 || LevelsBelow(m, t[..i], Level(m, t[i].v))
  }

  ghost predicate ReasonsOk(m: Model, t: seq<Lit>, reason: Reasons, db: Db)
  {
    |reason| == |m| && forall i :: 0 <= i < |t| ==> t[i].v < |m| && ReasonOk(m, t, i, reason[t[i].v], db)
  }

  // No free variable but `pending` has a reason.
  ghost predicate Unreasoned(m: Model, reason: Reasons, pending: int)
  {
    |reason| == |m| && forall v :: 0 <= v < |m| && m[v] == 0 && v != pending ==> reason[v] == None
  }

  ghost predicate Bound(m: Model, t: seq<Lit>, reason: Reasons, db: Db)
  {
    TrailOk(m, t) && ReasonsOk(m, t, reason, db)
  }

  // m' binds at least what m binds, in the same way.
  ghost predicate Extends(m: Model, m': Model)
  {
    |m| == |m'| && forall v :: 0 <= v < |m| && m[v] != 0 ==> m'[v] == m[v]
  }

  // Literals were only permuted inside clauses; binary clauses are untouched.
  ghost predicate SameBags(db: Db, db': Db)
  {
    |db| == |db'| && forall c :: 0 <= c < |db| ==> multiset(db[c]) == multiset(db'[c])
  }

  lemma FalseInTrail(m: Model, t: seq<Lit>, l: Lit)
    requires TrailOk(m, t)
    ensures False(m, l) <==> l.Neg() in t
    ensures True(m, l) <==> l in t
  {
    assert False(m, l) <==> True(m, l.Neg());
  }

  // A literal may be pushed at lvl with reason r.
  ghost predicate Pushable(m: Model, t: seq<Lit>, db: Db, l: Lit, lvl: nat, r: Option<nat>)
  {
    l.v < |m| && m[l.v] == 0 && lvl >= 1 && LevelsUpTo(m, t, lvl)
    && match r
       case Some(c) => c < |db| && l in db[c] && forall k :: k in db[c] && k != l ==> False(m, k)
       case None => lvl == 1 || LevelsBelow(m, t, lvl)
  }

  lemma PushTrail(m: Model, t: seq<Lit>, l: Lit, lvl: nat)
    requires TrailOk(m, t) && l.v < |m| && m[l.v] == 0 && lvl >= 1 && LevelsUpTo(m, t, lvl)
    ensures var m' := m[l.v := SignedLevel(l, lvl)];
            && TrailOk(m', t + [l]) && Extends(m, m') && LevelsUpTo(m', t + [l], lvl)
            && True(m', l) && Level(m', l.v) == lvl
  {
    var m', t' := m[l.v := SignedLevel(l, lvl)], t + [l];
    PushBinding(m, l, lvl);
    forall i | 0 <= i < |t| ensures t'[i] == t[i] && t[i].v != l.v && Level(m', t[i].v) == Level(m, t[i].v) {
      assert True(m, t[i]);
    }
    hide True, Level, SignedLevel;
    assert t'[|t|] == l;
    forall k: Lit | True(m', k) ensures k in t' {
    }
  }

  lemma PushBinding(m: Model, l: Lit, lvl: nat)
    requires l.v < |m| && m[l.v] == 0 && lvl >= 1
    ensures var m' := m[l.v := SignedLevel(l, lvl)];
            Extends(m, m') && Level(m', l.v) == lvl && forall k: Lit :: True(m', k) <==> True(m, k) || k == l
  {
  }

  lemma Push(m: Model, t: seq<Lit>, reason: Reasons, db: Db, l: Lit, lvl: nat, r: Option<nat>)
    requires Bound(m, t, reason, db) && Pushable(m, t, db, l, lvl, r)
    ensures var m', t', reason' := m[l.v := SignedLevel(l, lvl)], t + [l], reason[l.v := r];
            && Bound(m', t', reason', db) && Extends(m, m') && LevelsUpTo(m', t', lvl)
            && True(m', l) && Level(m', l.v) == lvl
  {
    var m', t', reason' := m[l.v := SignedLevel(l, lvl)], t + [l], reason[l.v := r];
    PushTrail(m, t, l, lvl);
    hide TrailOk;
    forall i | 0 <= i < |t| ensures ReasonOk(m', t', i, reason'[t'[i].v], db) {
      assert ReasonOk(m, t, i, reason[t[i].v], db);
      NotIn(m, t, l, i);
      assert t'[..i] == t[..i];
      if reason[t[i].v] == None {
        SameLevels(m, m', t, i);
      }
    }
    PushedReason(m, t, db, l, lvl, r);
  }

  lemma NotIn(m: Model, t: seq<Lit>, l: Lit, i: nat)
    requires TrailOk(m, t) && i < |t| && l.v < |m| && m[l.v] == 0
    ensures t[i].v != l.v && t[i].v < |m| && m[t[i].v] != 0
  {
  }

  lemma SameLevels(m: Model, m': Model, t: seq<Lit>, i: nat)
    requires TrailOk(m, t) && Extends(m, m') && i < |t|
    ensures Level(m', t[i].v) == Level(m, t[i].v)
    ensures LevelsBelow(m, t[..i], Level(m, t[i].v)) ==> LevelsBelow(m', t[..i], Level(m', t[i].v))
  {
  }

  lemma PushedReason(m: Model, t: seq<Lit>, db: Db, l: Lit, lvl: nat, r: Option<nat>)
    requires TrailOk(m, t) && Pushable(m, t, db, l, lvl, r)
    ensures ReasonOk(m[l.v := SignedLevel(l, lvl)], t + [l], |t|, r, db)
  {
    var m', t' := m[l.v := SignedLevel(l, lvl)], t + [l];
    assert t'[..|t|] == t;
    match r
    case Some(c) =>
      forall k | k in db[c] && k != l ensures k.Neg() in t {
        FalseInTrail(m, t, k);
      }
    case None =>
      assert forall i :: 0 <= i < |t| ==> t[i].v != l.v;
  }

  lemma ReasonsPermuted(m: Model, t: seq<Lit>, reason: Reasons, db: Db, db': Db)
    requires Bound(m, t, reason, db) && SameBags(db, db')
    ensures Bound(m, t, reason, db')
  {
    forall i | 0 <= i < |t| ensures ReasonOk(m, t, i, reason[t[i].v], db') {
      assert ReasonOk(m, t, i, reason[t[i].v], db);
      if reason[t[i].v].Some? {
        var c := reason[t[i].v].value;
        assert forall l :: l in db'[c] <==> l in multiset(db[c]);
      }
    }
  }

  // A clause is the reason of at most one literal.
  lemma ReasonOnce(m: Model, t: seq<Lit>, reason: Reasons, db: Db, i: nat, j: nat)
    requires Bound(m, t, reason, db) && i < |t| && j < |t| && reason[t[i].v].Some?
    requires reason[t[i].v] == reason[t[j].v]
    ensures t[i] == t[j] && (Level(m, t[i].v) >= 2 ==> i == j)
  {
    assert ReasonOk(m, t, i, reason[t[i].v], db) && ReasonOk(m, t, j, reason[t[j].v], db);
    assert t[i].Neg() !in t[..j] && t[j].Neg() !in t[..i] by {
      assert forall l :: l in t ==> True(m, l);
    }
  }

  ghost function Vars(t: seq<Lit>): set<nat> { set l | l in t :: l.v }

  lemma {:induction false} VarsCard(t: seq<Lit>)
    requires forall i, j :: 0 <= i < j < |t| ==> t[i].v != t[j].v
    ensures |Vars(t)| == |t|
  {
    if t != [] {
      var p, l := t[..|t| - 1], t[|t| - 1];
      VarsCard(p);
      assert t == p + [l];
      assert Vars(t) == Vars(p) + {l.v};
    }
  }

  lemma {:induction false} BelowCard(s: set<nat>, n: nat)
    requires forall v :: v in s ==> v < n
    ensures |s| <= n
  {
    if n > 0 {
      BelowCard(s - {n - 1}, n - 1);
      assert s <= (s - {n - 1}) + {n - 1};
    } else {
      assert s == {};
    }
  }

  // A trail without repetitions never holds more literals than there are variables.
  lemma TrailLength(m: Model, t: seq<Lit>)
    requires TrailOk(m, t) && DistinctVars(t)
    ensures |t| <= |m|
  {
    VarsCard(t);
    BelowCard(Vars(t), |m|);
  }
}
