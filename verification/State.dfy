// A snapshot of the solver's bindings together with its clause arena, and the changes propagation makes to it.
module State {
  import opened Logic
  import opened Bindings
  import opened Watches

  // The packed word lbdValue of a clause: learned flag, locked flag and literal block distance.
  datatype ClauseInfo = ClauseInfo(learned: bool, locked: bool, lbd: nat)

  datatype Core = Core(model: Model, trail: seq<Lit>, reason: Reasons, clauses: Db, info: seq<ClauseInfo>,
                       live: set<nat>)

  // The reason of a trail literal is a live clause, locked if it has three literals or more: a locked
  // clause is never deleted, and neither is a binary one.
  ghost predicate LockOk(s: Core, r: Option<nat>)
  {
    r.Some? ==> r.value in s.live && r.value < |s.clauses| && r.value < |s.info|
                && (|s.clauses[r.value]| >= 3 ==> s.info[r.value].locked)
  }

  ghost predicate LocksOk(s: Core)
  {
    forall i :: 0 <= i < |s.trail| && s.trail[i].v < |s.reason| ==> LockOk(s, s.reason[s.trail[i].v])
  }

  ghost predicate CoreOk(s: Core, nbVars: nat)
  {
    |s.model| == |s.reason| == nbVars && |s.info| == |s.clauses|
    && Bound(s.model, s.trail, s.reason, s.clauses) && DbOk(s.clauses, s.live, nbVars) && LocksOk(s)
  }

  ghost predicate AllFalse(m: Model, c: Clause) { forall l :: l in c ==> False(m, l) }

  // The literals after position n are at level lvl and each was forced by a clause.
  ghost predicate ForcedFrom(s: Core, n: nat, lvl: nat)
  {
    forall i :: n <= i < |s.trail| ==>
      Level(s.model, s.trail[i].v) == lvl && s.trail[i].v < |s.reason| && s.reason[s.trail[i].v].Some?
  }

  ghost predicate SameInfo(a: seq<ClauseInfo>, b: seq<ClauseInfo>)
  {
    |a| == |b| && forall c :: 0 <= c < |a| ==> a[c].learned == b[c].learned && a[c].lbd == b[c].lbd
  }

  ghost function FreeVars(m: Model): set<nat> { set v | 0 <= v < |m| && m[v] == 0 }

  // The literals of t after position n are free in m.
  ghost predicate FreshFrom(m: Model, t: seq<Lit>, n: nat)
  {
    forall i :: n <= i < |t| ==> t[i].v < |m| && m[t[i].v] == 0
  }

  // b is a with more forced literals at lvl; clauses were at most permuted.
  ghost predicate Grown(a: Core, b: Core, lvl: nat)
  {
    Extends(a.model, b.model) && a.trail <= b.trail && SameBags(a.clauses, b.clauses) && a.live == b.live
    && SameInfo(a.info, b.info) && ForcedFrom(b, |a.trail|, lvl) && FreshFrom(a.model, b.trail, |a.trail|)
    && |a.reason| == |b.reason|
    && (forall i :: 0 <= i < |a.trail| && a.trail[i].v < |a.reason| ==> a.reason[a.trail[i].v] == b.reason[a.trail[i].v])
    && (forall v :: 0 <= v < |a.reason| && v < |b.model| && b.model[v] == 0 ==> a.reason[v] == b.reason[v])
  }

  lemma GrownRefl(s: Core, lvl: nat)
    ensures Grown(s, s, lvl)
  {
  }

  lemma GrownFree(a: Core, b: Core, lvl: nat)
    requires Grown(a, b, lvl) && TrailOk(b.model, b.trail)
    ensures FreeVars(b.model) <= FreeVars(a.model)
    ensures |b.trail| > |a.trail| ==> FreeVars(b.model) < FreeVars(a.model)
  {
    if |b.trail| > |a.trail| {
      var u := b.trail[|a.trail|];
      assert True(b.model, u);
      assert u.v in FreeVars(a.model) && u.v !in FreeVars(b.model);
    }
  }

  function Pushed(s: Core, u: Lit, lvl: nat, r: Option<nat>): (s': Core)
    requires u.v < |s.model| && u.v < |s.reason|
  {
    s.(model := s.model[u.v := SignedLevel(u, lvl)], trail := s.trail + [u], reason := s.reason[u.v := r])
  }

  function Locked(info: seq<ClauseInfo>, c: nat, locked: bool): seq<ClauseInfo>
    requires c < |info|
  {
    info[c := info[c].(locked := locked)]
  }

  // The state after clause c has forced u at lvl; a long clause is locked when it becomes a reason.
  function ForcedBy(s: Core, u: Lit, lvl: nat, c: nat, lock: bool): (s': Core)
    requires u.v < |s.model| && u.v < |s.reason| && c < |s.info|
  {
    Pushed(s, u, lvl, Some(c)).(info := if lock then Locked(s.info, c, true) else s.info)
  }

  lemma Force(s: Core, nbVars: nat, u: Lit, lvl: nat, c: nat, lock: bool)
    requires CoreOk(s, nbVars) && u.v < nbVars && s.model[u.v] == 0 && lvl >= 1 && LevelsUpTo(s.model, s.trail, lvl)
    requires c in s.live && c < |s.clauses| && u in s.clauses[c] && (lock || |s.clauses[c]| == 2)
    requires forall l :: l in s.clauses[c] && l != u ==> False(s.model, l)
    ensures var s' := ForcedBy(s, u, lvl, c, lock);
            && CoreOk(s', nbVars) && Grown(s, s', lvl) && LevelsUpTo(s'.model, s'.trail, lvl) && True(s'.model, u)
  {
    hide TrailOk, ReasonsOk, DbOk, Extends, LevelsUpTo, True, Level;
    Push(s.model, s.trail, s.reason, s.clauses, u, lvl, Some(c));
    var s' := ForcedBy(s, u, lvl, c, lock);
    FreeNotInTrail(s.model, s.trail, u);
    forall i | 0 <= i < |s'.trail| && s'.trail[i].v < |s'.reason| ensures LockOk(s', s'.reason[s'.trail[i].v]) {
      assert i < |s.trail| ==> LockOk(s, s.reason[s.trail[i].v]);
    }
    assert s'.trail[..|s.trail|] == s.trail;
  }

  lemma FreeNotInTrail(m: Model, t: seq<Lit>, u: Lit)
    requires TrailOk(m, t) && u.v < |m| && m[u.v] == 0
    ensures forall i :: 0 <= i < |t| ==> t[i].v != u.v
  {
  }

  // Permuting the literals of a long clause.
  lemma SwapCore(s: Core, nbVars: nat, wb: Lists, c: nat, i: nat, j: nat, lvl: nat)
    requires CoreOk(s, nbVars) && BinOk(s.clauses, s.live, wb)
    requires c < |s.clauses| && |s.clauses[c]| >= 3 && i < |s.clauses[c]| && j < |s.clauses[c]|
    ensures var s' := s.(clauses := s.clauses[c := Swap(s.clauses[c], i, j)]);
            CoreOk(s', nbVars) && Grown(s, s', lvl) && BinOk(s'.clauses, s'.live, wb)
  {
    var s' := s.(clauses := s.clauses[c := Swap(s.clauses[c], i, j)]);
    SwapKeeps(s.clauses, s.live, nbVars, wb, c, i, j);
    ReasonsPermuted(s.model, s.trail, s.reason, s.clauses, s'.clauses);
    hide Bound, DbOk, BinOk;
    forall k | 0 <= k < |s'.trail| && s'.trail[k].v < |s'.reason| ensures LockOk(s', s'.reason[s'.trail[k].v]) {
      assert LockOk(s, s.reason[s.trail[k].v]);
    }
  }

  // What propagation at level lvl keeps at every step: `wl` and `wb` are the watch lists of long and of
  // binary clauses, `done` the literals whose propagation is complete.
  ghost predicate Sound(s: Core, nbVars: nat, wl: Lists, wb: Lists, done: set<Lit>, lvl: nat)
  {
    SoundFor(s, nbVars, wl, wb, done, lvl, s.live)
  }

  // The same while only the clauses `guarded` are known to be guarded.
  ghost predicate SoundFor(s: Core, nbVars: nat, wl: Lists, wb: Lists, done: set<Lit>, lvl: nat, guarded: set<nat>)
  {
    CoreOk(s, nbVars) && LevelsUpTo(s.model, s.trail, lvl)
    && Total(wl, nbVars) && LongOk(s.clauses, s.live, wl)
    && Total(wb, nbVars) && BinOk(s.clauses, s.live, wb)
    && AllGuarded(s.model, s.clauses, guarded, done)
    && done <= Elems(s.trail)
  }

  lemma SoundForce(s: Core, nbVars: nat, wl: Lists, wb: Lists, done: set<Lit>, lvl: nat, u: Lit, c: nat, lock: bool)
    requires Sound(s, nbVars, wl, wb, done, lvl) && lvl >= 1 && u.v < nbVars && s.model[u.v] == 0
    requires c in s.live && c < |s.clauses| && u in s.clauses[c] && (lock || |s.clauses[c]| == 2)
    requires forall l :: l in s.clauses[c] && l != u ==> False(s.model, l)
    ensures var s' := ForcedBy(s, u, lvl, c, lock);
            Sound(s', nbVars, wl, wb, done, lvl) && Grown(s, s', lvl) && True(s'.model, u)
  {
    Force(s, nbVars, u, lvl, c, lock);
    hide CoreOk, LevelsUpTo, Total, LongOk, BinOk, AllGuarded, Extends, SameBags, ForcedFrom, SameInfo;
    GuardedMono(s.model, ForcedBy(s, u, lvl, c, lock).model, s.clauses, s.live, done);
  }

  lemma SoundReblock(s: Core, nbVars: nat, wl: Lists, wb: Lists, done: set<Lit>, lvl: nat, p: Lit, j: nat, w: Watcher)
    requires Sound(s, nbVars, wl, wb, done, lvl) && p in wl && j < |wl[p]|
    requires w.clause == wl[p][j].clause && w.clause < |s.clauses| && w.other in s.clauses[w.clause]
    ensures Sound(s, nbVars, wl[p := wl[p][j := w]], wb, done, lvl)
  {
    hide CoreOk, LevelsUpTo, LongOk, BinOk, AllGuarded;
    Reblock(s.clauses, s.live, wl, p, j, w);
  }

  // The clause state after its literals i and j have been exchanged.
  function Exchanged(s: Core, c: nat, i: nat, j: nat): Core
    requires c < |s.clauses| && i < |s.clauses[c]| && j < |s.clauses[c]|
  {
    s.(clauses := s.clauses[c := Swap(s.clauses[c], i, j)])
  }

  lemma SoundExchange(s: Core, nbVars: nat, wl: Lists, wb: Lists, done: set<Lit>, lvl: nat, c: nat)
    requires Sound(s, nbVars, wl, wb, done, lvl) && c < |s.clauses| && |s.clauses[c]| >= 3
    ensures var s' := Exchanged(s, c, 0, 1);
            Sound(s', nbVars, wl, wb, done, lvl) && Grown(s, s', lvl)
  {
    SwapCore(s, nbVars, wb, c, 0, 1, lvl);
    hide CoreOk, LevelsUpTo, LongOk, BinOk, AllGuarded, Grown;
    ExchangeWatched(s.model, s.clauses, s.live, wl, c, done);
  }

  lemma SoundMove(s: Core, nbVars: nat, wl: Lists, wb: Lists, done: set<Lit>, lvl: nat, p: Lit, j: nat, k: nat, w: Watcher)
    requires Sound(s, nbVars, wl, wb, done, lvl) && p in wl && j < |wl[p]|
    requires w.clause == wl[p][j].clause && w.clause < |s.clauses| && 2 <= k < |s.clauses[w.clause]|
    requires s.clauses[w.clause][1] == p.Neg() && w.other in s.clauses[w.clause]
    requires !False(s.model, s.clauses[w.clause][k])
    ensures s.clauses[w.clause][k].Neg() in wl && s.clauses[w.clause][k].Neg() != p
    ensures var q, s' := s.clauses[w.clause][k].Neg(), Exchanged(s, w.clause, 1, k);
            && Sound(s', nbVars, wl[p := Without(wl[p], j)][q := wl[q] + [w]], wb, done, lvl)
            && Grown(s, s', lvl)
  {
    var q := s.clauses[w.clause][k].Neg();
    assert ClauseOk(s.clauses[w.clause], nbVars);
    SwapCore(s, nbVars, wb, w.clause, 1, k, lvl);
    hide CoreOk, LevelsUpTo, LongOk, BinOk, AllGuarded, Grown;
    MoveWatch(s.model, s.clauses, s.live, wl, p, j, k, w, done);
  }

  lemma SoundLess(s: Core, nbVars: nat, wl: Lists, wb: Lists, done: set<Lit>, done': set<Lit>, lvl: nat)
    requires Sound(s, nbVars, wl, wb, done, lvl) && done' <= done
    ensures Sound(s, nbVars, wl, wb, done', lvl)
  {
    hide CoreOk, LevelsUpTo, LongOk, BinOk;
    forall c | c in s.live && c < |s.clauses| ensures ClauseGuarded(s.model, s.clauses[c], done') {
      assert ClauseGuarded(s.model, s.clauses[c], done);
    }
  }

  // Every watcher of p has been visited: p counts as propagated.
  lemma SoundNext(s: Core, nbVars: nat, wl: Lists, wb: Lists, done: set<Lit>, lvl: nat, p: Lit)
    requires Sound(s, nbVars, wl, wb, done, lvl) && p in s.trail && Level(s.model, p.v) == lvl
    requires p in wl && Visited(s.model, s.clauses, wl[p], |wl[p]|)
    requires p in wb && Visited(s.model, s.clauses, wb[p], |wb[p]|)
    ensures Sound(s, nbVars, wl, wb, done + {p}, lvl)
  {
    hide LevelsUpTo, LongOk, BinOk, TrailOk;
    GuardNext(s.model, s.trail, s.clauses, s.live, nbVars, wl, wb, p, done);
  }

  lemma VisitedGrown(a: Core, b: Core, ws: seq<Watcher>, n: nat, lvl: nat)
    requires Visited(a.model, a.clauses, ws, n) && Grown(a, b, lvl)
    ensures Visited(b.model, b.clauses, ws, n)
  {
    VisitedMono(a.model, b.model, a.clauses, ws, n);
    forall k | 0 <= k < n ensures ws[k].clause < |b.clauses| && HasTrue(b.model, b.clauses[ws[k].clause]) {
      var c := ws[k].clause;
      assert multiset(a.clauses[c]) == multiset(b.clauses[c]);
      assert forall l :: l in b.clauses[c] <==> l in multiset(a.clauses[c]);
      SameMembersTrue(b.model, a.clauses[c], b.clauses[c]);
    }
  }

  lemma VisitedOne(m: Model, db: Db, ws: seq<Watcher>, n: nat, l: Lit)
    requires Visited(m, db, ws, n) && n < |ws| && ws[n].clause < |db| && l in db[ws[n].clause] && True(m, l)
    ensures Visited(m, db, ws, n + 1)
  {
  }

  // The conflict a propagation reports: a live clause that is false, with a literal of level lvl.
  ghost predicate ConflictAt(s: Core, c: nat, lvl: nat)
  {
    c in s.live && c < |s.clauses| && AllFalse(s.model, s.clauses[c])
    && exists l :: l in s.clauses[c] && Level(s.model, l.v) == lvl
  }

  lemma SoundFacts(s: Core, nbVars: nat, wl: Lists, wb: Lists, done: set<Lit>, lvl: nat)
    requires Sound(s, nbVars, wl, wb, done, lvl)
    ensures forall p: Lit :: p.v < nbVars ==> p in wl && p in wb
    ensures forall i :: 0 <= i < |s.trail| ==> s.trail[i].v < nbVars && True(s.model, s.trail[i])
  {
  }
}
