// The two-watched-literal scheme of solver/watcher.go: what the watch lists promise, and what each
// change to a list or to a clause preserves.
module Watches {
  import opened Logic
  import opened Bindings

  datatype Watcher = Watcher(other: Lit, clause: nat)

  // For each literal, the watchers of the clauses in which its negation is watched.
  type Lists = map<Lit, seq<Watcher>>

  ghost predicate Total(wl: Lists, nbVars: nat) { forall p: Lit :: p.v < nbVars ==> p in wl }

  // Every clause has at least two literals, over distinct known variables.
  ghost predicate ClauseOk(c: Clause, nbVars: nat)
  {
    |c| >= 2 && DistinctVars(c) && forall i :: 0 <= i < |c| ==> c[i].v < nbVars
  }

  ghost predicate DbOk(db: Db, live: set<nat>, nbVars: nat)
  {
    (forall c :: c in live ==> c < |db|) && forall c :: 0 <= c < |db| ==> ClauseOk(db[c], nbVars)
  }

  // A watcher under p names a live clause of three literals or more that watches -p, and one of its literals.
  ghost predicate LongWatcher(db: Db, live: set<nat>, p: Lit, w: Watcher)
  {
    w.clause in live && w.clause < |db| && |db[w.clause]| >= 3 && w.other in db[w.clause]
    && (db[w.clause][0] == p.Neg() || db[w.clause][1] == p.Neg())
  }

  // A binary watcher under p names a live clause made of -p and `other`.
  ghost predicate BinWatcher(db: Db, live: set<nat>, p: Lit, w: Watcher)
  {
    w.clause in live && w.clause < |db| && |db[w.clause]| == 2
    && (db[w.clause] == [p.Neg(), w.other] || db[w.clause] == [w.other, p.Neg()])
  }

  ghost predicate Watching(ws: seq<Watcher>, c: nat) { exists i :: 0 <= i < |ws| && ws[i].clause == c }

  ghost predicate WatchedIn(wl: Lists, p: Lit, c: nat) { p in wl && Watching(wl[p], c) }

  ghost predicate AllLong(db: Db, live: set<nat>, p: Lit, ws: seq<Watcher>)
  {
    forall i :: 0 <= i < |ws| ==> LongWatcher(db, live, p, ws[i])
  }

  ghost predicate Once(ws: seq<Watcher>)
  {
    forall i, j :: 0 <= i < j < |ws| ==> ws[i].clause != ws[j].clause
  }

  // The list of p is sound and mentions no clause twice.
  ghost predicate ListOk(db: Db, live: set<nat>, p: Lit, ws: seq<Watcher>) { AllLong(db, live, p, ws) && Once(ws) }

  ghost predicate Listed(db: Db, wl: Lists, c: nat)
    requires c < |db| && |db[c]| >= 2
  {
    WatchedIn(wl, db[c][0].Neg(), c) && WatchedIn(wl, db[c][1].Neg(), c)
  }

  // Long clauses: every list is sound, and every live clause is in the lists of its two watched literals.
  ghost predicate LongOk(db: Db, live: set<nat>, wl: Lists)
  {
    (forall p :: p in wl ==> ListOk(db, live, p, wl[p]))
    && forall c :: c in live && c < |db| && |db[c]| >= 3 ==> Listed(db, wl, c)
  }

  ghost predicate BinOk(db: Db, live: set<nat>, wb: Lists)
  {
    (forall p, i :: p in wb && 0 <= i < |wb[p]| ==> BinWatcher(db, live, p, wb[p][i]))
    && forall c :: c in live && c < |db| && |db[c]| == 2 ==> Listed(db, wb, c)
  }

  ghost predicate HasTrue(m: Model, c: Clause) { exists l :: l in c && True(m, l) }

  ghost predicate TrueBelow(m: Model, c: Clause, lvl: nat) { exists l :: l in c && True(m, l) && Level(m, l.v) <= lvl }

  // If the negation of the watched literal l was propagated, some literal of c is true at a level no higher.
  ghost predicate Guarded(m: Model, c: Clause, l: Lit, done: set<Lit>)
  {
    l.Neg() in done ==> TrueBelow(m, c, Level(m, l.v))
  }

  ghost predicate ClauseGuarded(m: Model, c: Clause, done: set<Lit>)
  {
    |c| >= 2 && Guarded(m, c, c[0], done) && Guarded(m, c, c[1], done)
  }

  ghost predicate AllGuarded(m: Model, db: Db, live: set<nat>, done: set<Lit>)
  {
    forall c :: c in live && c < |db| ==> ClauseGuarded(m, db[c], done)
  }

  // The first n watchers of the list have been visited and their clauses hold a true literal.
  ghost predicate Visited(m: Model, db: Db, ws: seq<Watcher>, n: nat)
  {
    n <= |ws| && forall i :: 0 <= i < n ==> ws[i].clause < |db| && HasTrue(m, db[ws[i].clause])
  }

  function Without<T>(s: seq<T>, j: nat): seq<T>
    requires j < |s|
  {
    s[..j] + s[j + 1..]
  }

  // ----- growing bindings -----

  lemma GuardedMono(m: Model, m': Model, db: Db, live: set<nat>, done: set<Lit>)
    requires AllGuarded(m, db, live, done) && Extends(m, m') && forall l :: l in done ==> True(m, l)
    ensures AllGuarded(m', db, live, done)
  {
    forall c | c in live && c < |db| ensures ClauseGuarded(m', db[c], done) {
      assert ClauseGuarded(m, db[c], done);
      forall k: nat | k < 2 && db[c][k].Neg() in done ensures TrueBelow(m', db[c], Level(m', db[c][k].v)) {
        assert Guarded(m, db[c], db[c][k], done);
        var l :| l in db[c] && True(m, l) && Level(m, l.v) <= Level(m, db[c][k].v);
        assert True(m, db[c][k].Neg());
      }
    }
  }

  lemma HasTrueMono(m: Model, m': Model, c: Clause)
    requires HasTrue(m, c) && Extends(m, m')
    ensures HasTrue(m', c)
  {
  }

  lemma VisitedMono(m: Model, m': Model, db: Db, ws: seq<Watcher>, n: nat)
    requires Visited(m, db, ws, n) && Extends(m, m')
    ensures Visited(m', db, ws, n)
  {
    forall i | 0 <= i < n ensures HasTrue(m', db[ws[i].clause]) {
      HasTrueMono(m, m', db[ws[i].clause]);
    }
  }

  // ----- one watcher -----

  // Replacing the blocking literal of a watcher.
  lemma Reblock(db: Db, live: set<nat>, wl: Lists, p: Lit, j: nat, w: Watcher)
    requires LongOk(db, live, wl) && p in wl && j < |wl[p]|
    requires w.clause == wl[p][j].clause && w.clause < |db| && w.other in db[w.clause]
    ensures LongOk(db, live, wl[p := wl[p][j := w]])
  {
    var wl' := wl[p := wl[p][j := w]];
    assert ListOk(db, live, p, wl[p]);
    forall c | c in live && c < |db| && |db[c]| >= 3 ensures Listed(db, wl', c) {
      assert Listed(db, wl, c);
      forall q | WatchedIn(wl, q, c) ensures WatchedIn(wl', q, c) {
        var i :| 0 <= i < |wl[q]| && wl[q][i].clause == c;
        assert wl'[q][i].clause == c;
      }
    }
    forall q | q in wl' ensures ListOk(db, live, q, wl'[q]) {
      assert ListOk(db, live, q, wl[q]);
    }
  }

  // Exchanging the two watched literals of a clause.
  lemma ExchangeWatched(m: Model, db: Db, live: set<nat>, wl: Lists, c: nat, done: set<Lit>)
    requires LongOk(db, live, wl) && AllGuarded(m, db, live, done) && c < |db| && |db[c]| >= 2
    ensures var db' := db[c := Swap(db[c], 0, 1)]; LongOk(db', live, wl) && AllGuarded(m, db', live, done)
  {
    var db' := db[c := Swap(db[c], 0, 1)];
    SwapMembers(db[c], 0, 1);
    forall p | p in wl ensures ListOk(db', live, p, wl[p]) {
      assert ListOk(db, live, p, wl[p]);
      forall i | 0 <= i < |wl[p]| ensures LongWatcher(db', live, p, wl[p][i]) {
        assert LongWatcher(db, live, p, wl[p][i]);
      }
    }
    forall e | e in live && e < |db'| && |db'[e]| >= 3 ensures Listed(db', wl, e) {
      assert Listed(db, wl, e);
    }
    forall e | e in live && e < |db'| ensures ClauseGuarded(m, db'[e], done) {
      assert ClauseGuarded(m, db[e], done);
      if e == c {
        SameMembersGuarded(m, db[c], db'[c], db[c][0], done);
        SameMembersGuarded(m, db[c], db'[c], db[c][1], done);
      }
    }
  }

  lemma SwapMembers(c: Clause, i: nat, j: nat)
    requires i < |c| && j < |c|
    ensures forall l :: l in Swap(c, i, j) <==> l in c
  {
    assert forall l :: l in Swap(c, i, j) <==> l in multiset(c);
  }

  lemma SameMembersGuarded(m: Model, c: Clause, c': Clause, l: Lit, done: set<Lit>)
    requires Guarded(m, c, l, done) && forall k :: k in c' <==> k in c
    ensures Guarded(m, c', l, done)
  {
    if l.Neg() in done {
      var k :| k in c && True(m, k) && Level(m, k.v) <= Level(m, l.v);
      assert k in c';
    }
  }

  lemma SameMembersTrue(m: Model, c: Clause, c': Clause)
    requires HasTrue(m, c) && forall k :: k in c' <==> k in c
    ensures HasTrue(m, c')
  {
    var k :| k in c && True(m, k);
    assert k in c';
  }

  lemma VisitedSwap(m: Model, db: Db, ws: seq<Watcher>, n: nat, c: nat, i: nat, j: nat)
    requires Visited(m, db, ws, n) && c < |db| && i < |db[c]| && j < |db[c]|
    ensures Visited(m, db[c := Swap(db[c], i, j)], ws, n)
  {
    var db' := db[c := Swap(db[c], i, j)];
    SwapMembers(db[c], i, j);
    forall k | 0 <= k < n ensures HasTrue(m, db'[ws[k].clause]) {
      SameMembersTrue(m, db[ws[k].clause], db'[ws[k].clause]);
    }
  }

  // Watching literal k of the clause instead of its second one, -p: its watcher moves from p to another list.
  lemma MoveWatch(m: Model, db: Db, live: set<nat>, wl: Lists, p: Lit, j: nat, k: nat, w: Watcher, done: set<Lit>)
    requires LongOk(db, live, wl) && AllGuarded(m, db, live, done) && p in wl && j < |wl[p]|
    requires w.clause == wl[p][j].clause && w.clause < |db| && 2 <= k < |db[w.clause]|
    requires DistinctVars(db[w.clause]) && db[w.clause][1] == p.Neg() && w.other in db[w.clause]
    requires db[w.clause][k].Neg() in wl && db[w.clause][k].Neg() !in done
    ensures var q, db' := db[w.clause][k].Neg(), db[w.clause := Swap(db[w.clause], 1, k)];
            && q != p
            && LongOk(db', live, wl[p := Without(wl[p], j)][q := wl[q] + [w]])
            && AllGuarded(m, db', live, done)
  {
    var c := w.clause;
    var q, db' := db[c][k].Neg(), db[c := Swap(db[c], 1, k)];
    var wl' := wl[p := Without(wl[p], j)][q := wl[q] + [w]];
    SwapMembers(db[c], 1, k);
    MoveLists(db, db', live, wl, p, j, k, w);
    forall e | e in live && e < |db'| && |db'[e]| >= 3 ensures Listed(db', wl', e) {
      assert Listed(db, wl, e);
      forall r | WatchedIn(wl, r, e) && (r != p || e != c) ensures WatchedIn(wl', r, e) {
        MovedStays(wl, p, j, q, w, r, e);
      }
      if e == c {
        assert wl'[q][|wl[q]|].clause == c;
      }
    }
    forall e | e in live && e < |db'| ensures ClauseGuarded(m, db'[e], done) {
      assert ClauseGuarded(m, db[e], done);
      if e == c {
        SameMembersGuarded(m, db[c], db'[c], db[c][0], done);
      }
    }
  }

  lemma MovedStays(wl: Lists, p: Lit, j: nat, q: Lit, w: Watcher, r: Lit, e: nat)
    requires p in wl && q in wl && q != p && j < |wl[p]| && w.clause == wl[p][j].clause
    requires WatchedIn(wl, r, e) && (r != p || e != w.clause)
    ensures WatchedIn(wl[p := Without(wl[p], j)][q := wl[q] + [w]], r, e)
  {
    var wl' := wl[p := Without(wl[p], j)][q := wl[q] + [w]];
    var i :| 0 <= i < |wl[r]| && wl[r][i].clause == e;
    if r == p {
      assert i != j;
      assert wl'[r][if i < j then i else i - 1] == wl[r][i];
    } else {
      assert wl'[r][i] == wl[r][i];
    }
  }

  lemma MoveLists(db: Db, db': Db, live: set<nat>, wl: Lists, p: Lit, j: nat, k: nat, w: Watcher)
    requires LongOk(db, live, wl) && p in wl && j < |wl[p]|
    requires w.clause == wl[p][j].clause && w.clause < |db| && 2 <= k < |db[w.clause]|
    requires DistinctVars(db[w.clause]) && db[w.clause][1] == p.Neg() && w.other in db[w.clause]
    requires db[w.clause][k].Neg() in wl && db' == db[w.clause := Swap(db[w.clause], 1, k)]
    requires forall l :: l in db'[w.clause] <==> l in db[w.clause]
    ensures var q := db[w.clause][k].Neg(); var wl' := wl[p := Without(wl[p], j)][q := wl[q] + [w]];
            q != p && forall r :: r in wl' ==> ListOk(db', live, r, wl'[r])
  {
    var c, q := w.clause, db[w.clause][k].Neg();
    var wl' := wl[p := Without(wl[p], j)][q := wl[q] + [w]];
    assert ListOk(db, live, p, wl[p]) && LongWatcher(db, live, p, wl[p][j]);
    assert ListOk(db, live, q, wl[q]);
    forall i | 0 <= i < |wl[q]| ensures wl[q][i].clause != c {
      assert LongWatcher(db, live, q, wl[q][i]);
    }
    forall r, i | r in wl && 0 <= i < |wl[r]| && (r != p || i != j) ensures LongWatcher(db', live, r, wl[r][i]) {
      assert ListOk(db, live, r, wl[r]) && LongWatcher(db, live, r, wl[r][i]);
      assert r == p ==> wl[r][i].clause != wl[p][j].clause;
    }
    assert LongWatcher(db', live, q, w);
    assert forall r :: r in wl && r != p && r != q ==> ListOk(db, live, r, wl[r]);
  }

  // ----- end of a list -----

  lemma LongDone(m: Model, db: Db, live: set<nat>, wl: Lists, p: Lit, c: nat)
    requires LongOk(db, live, wl) && p in wl && Visited(m, db, wl[p], |wl[p]|)
    requires c in live && c < |db| && |db[c]| >= 3 && (db[c][0] == p.Neg() || db[c][1] == p.Neg())
    ensures HasTrue(m, db[c])
  {
    assert Listed(db, wl, c);
    assert WatchedIn(wl, p, c);
  }

  lemma BinDone(m: Model, db: Db, live: set<nat>, wb: Lists, p: Lit, c: nat)
    requires BinOk(db, live, wb) && p in wb && Visited(m, db, wb[p], |wb[p]|)
    requires c in live && c < |db| && |db[c]| == 2 && (db[c][0] == p.Neg() || db[c][1] == p.Neg())
    ensures HasTrue(m, db[c])
  {
    assert Listed(db, wb, c);
    assert WatchedIn(wb, p, c);
  }

  // Both lists of p have been visited: p counts as propagated.
  lemma GuardNext(m: Model, t: seq<Lit>, db: Db, live: set<nat>, nbVars: nat, wl: Lists, wb: Lists, p: Lit, done: set<Lit>)
    requires AllGuarded(m, db, live, done) && DbOk(db, live, nbVars) && TrailOk(m, t)
    requires LongOk(db, live, wl) && p in wl && Visited(m, db, wl[p], |wl[p]|)
    requires BinOk(db, live, wb) && p in wb && Visited(m, db, wb[p], |wb[p]|)
    requires LevelsUpTo(m, t, Level(m, p.v))
    ensures AllGuarded(m, db, live, done + {p})
  {
    forall c | c in live && c < |db| ensures ClauseGuarded(m, db[c], done + {p}) {
      assert ClauseGuarded(m, db[c], done) && ClauseOk(db[c], nbVars);
      forall k: nat | k < 2 && db[c][k].Neg() in done + {p} ensures TrueBelow(m, db[c], Level(m, db[c][k].v)) {
        assert Guarded(m, db[c], db[c][k], done);
        if db[c][k].Neg() == p {
          if |db[c]| == 2 {
            BinDone(m, db, live, wb, p, c);
          } else {
            LongDone(m, db, live, wl, p, c);
          }
          var l :| l in db[c] && True(m, l);
          assert l in t;
        }
      }
    }
  }

  // ----- what one watcher tells -----

  lemma WatcherFacts(db: Db, live: set<nat>, nbVars: nat, wl: Lists, p: Lit, j: nat)
    requires LongOk(db, live, wl) && DbOk(db, live, nbVars) && p in wl && j < |wl[p]|
    ensures var w := wl[p][j];
            && w.clause in live && w.clause < |db| && ClauseOk(db[w.clause], nbVars) && |db[w.clause]| >= 3
            && w.other in db[w.clause] && w.other.v < nbVars
            && (db[w.clause][0] == p.Neg() || db[w.clause][1] == p.Neg())
            && (forall l :: l in db[w.clause] ==> l.v < nbVars)
  {
    assert ListOk(db, live, p, wl[p]);
    assert LongWatcher(db, live, p, wl[p][j]);
    assert ClauseOk(db[wl[p][j].clause], nbVars);
  }

  lemma BinFacts(db: Db, live: set<nat>, nbVars: nat, wb: Lists, p: Lit, j: nat)
    requires BinOk(db, live, wb) && DbOk(db, live, nbVars) && p in wb && j < |wb[p]|
    ensures var w := wb[p][j];
            && w.clause in live && w.clause < |db| && |db[w.clause]| == 2
            && w.other in db[w.clause] && w.other.v < nbVars && p.Neg() in db[w.clause]
            && (forall l :: l in db[w.clause] ==> l == w.other || l == p.Neg())
  {
    assert BinWatcher(db, live, p, wb[p][j]);
    assert ClauseOk(db[wb[p][j].clause], nbVars);
  }

  // Permuting a long clause leaves the binary lists and the clause shapes alone.
  lemma SwapKeeps(db: Db, live: set<nat>, nbVars: nat, wb: Lists, c: nat, i: nat, j: nat)
    requires DbOk(db, live, nbVars) && BinOk(db, live, wb) && c < |db| && |db[c]| >= 3 && i < |db[c]| && j < |db[c]|
    ensures var db' := db[c := Swap(db[c], i, j)];
            DbOk(db', live, nbVars) && BinOk(db', live, wb) && SameBags(db, db')
  {
    var db' := db[c := Swap(db[c], i, j)];
    assert ClauseOk(db[c], nbVars);
    forall p, k | p in wb && 0 <= k < |wb[p]| ensures BinWatcher(db', live, p, wb[p][k]) {
      assert BinWatcher(db, live, p, wb[p][k]);
    }
    forall e | e in live && e < |db'| && |db'[e]| == 2 ensures Listed(db', wb, e) {
      assert Listed(db, wb, e);
    }
    forall e | 0 <= e < |db'| ensures ClauseOk(db'[e], nbVars) {
      assert ClauseOk(db[e], nbVars);
    }
  }

  // ----- adding and removing a clause -----

  function Added(wl: Lists, c: nat, first: Lit, second: Lit): Lists
    requires first.Neg() in wl && second.Neg() in wl && first.Neg() != second.Neg()
  {
    wl[first.Neg() := wl[first.Neg()] + [Watcher(second, c)]][second.Neg() := wl[second.Neg()] + [Watcher(first, c)]]
  }

  lemma ListedGrows(db: Db, wl: Lists, wl': Lists, c: nat)
    requires c < |db| && |db[c]| >= 2 && Listed(db, wl, c)
    requires forall p :: p in wl ==> p in wl' && wl[p] <= wl'[p]
    ensures Listed(db, wl', c)
  {
    forall p: Lit | WatchedIn(wl, p, c) ensures WatchedIn(wl', p, c) {
      var i :| 0 <= i < |wl[p]| && wl[p][i].clause == c;
      assert wl'[p][i].clause == c;
    }
  }

  lemma ListedNew(db: Db, wl: Lists, c: nat)
    requires c < |db| && |db[c]| >= 2 && db[c][0].v != db[c][1].v
    requires db[c][0].Neg() in wl && db[c][1].Neg() in wl
    ensures Listed(db, Added(wl, c, db[c][0], db[c][1]), c)
  {
    var p, q := db[c][0].Neg(), db[c][1].Neg();
    var wl' := Added(wl, c, db[c][0], db[c][1]);
    assert wl'[p][|wl[p]|] == Watcher(db[c][1], c) && wl'[q][|wl[q]|] == Watcher(db[c][0], c);
  }

  lemma WatchLong(db: Db, live: set<nat>, nbVars: nat, wl: Lists, c: nat)
    requires LongOk(db, live, wl) && Total(wl, nbVars) && c !in live && c < |db| && |db[c]| >= 3
    requires ClauseOk(db[c], nbVars)
    ensures db[c][0].v != db[c][1].v && db[c][0].v < nbVars && db[c][1].v < nbVars
    ensures var wl' := Added(wl, c, db[c][0], db[c][1]); LongOk(db, live + {c}, wl') && Total(wl', nbVars)
  {
    var wl' := Added(wl, c, db[c][0], db[c][1]);
    forall e | e in live + {c} && e < |db| && |db[e]| >= 3 ensures Listed(db, wl', e) {
      if e == c {
        ListedNew(db, wl, c);
      } else {
        ListedGrows(db, wl, wl', e);
      }
    }
    forall p | p in wl' ensures ListOk(db, live + {c}, p, wl'[p]) {
      assert ListOk(db, live, p, wl[p]);
      forall i | 0 <= i < |wl[p]| ensures LongWatcher(db, live + {c}, p, wl[p][i]) && wl[p][i].clause != c {
        assert LongWatcher(db, live, p, wl[p][i]);
      }
    }
  }

  lemma WatchBin(db: Db, live: set<nat>, nbVars: nat, wb: Lists, c: nat)
    requires BinOk(db, live, wb) && Total(wb, nbVars) && c < |db| && |db[c]| == 2 && ClauseOk(db[c], nbVars)
    ensures db[c][0].v != db[c][1].v && db[c][0].v < nbVars && db[c][1].v < nbVars
    ensures var wb' := Added(wb, c, db[c][0], db[c][1]); BinOk(db, live + {c}, wb') && Total(wb', nbVars)
  {
    var wb' := Added(wb, c, db[c][0], db[c][1]);
    forall e | e in live + {c} && e < |db| && |db[e]| == 2 ensures Listed(db, wb', e) {
      if e == c {
        ListedNew(db, wb, c);
      } else {
        ListedGrows(db, wb, wb', e);
      }
    }
    forall p, i | p in wb' && 0 <= i < |wb'[p]| ensures BinWatcher(db, live + {c}, p, wb'[p][i]) {
      assert i < |wb[p]| ==> BinWatcher(db, live, p, wb[p][i]);
      assert db[c] == [db[c][0], db[c][1]];
    }
  }

  // A live set that grows by a clause of the other kind.
  lemma OtherKind(db: Db, live: set<nat>, wl: Lists, wb: Lists, c: nat)
    requires LongOk(db, live, wl) && BinOk(db, live, wb) && c < |db|
    ensures |db[c]| == 2 ==> LongOk(db, live + {c}, wl)
    ensures |db[c]| >= 3 ==> BinOk(db, live + {c}, wb)
  {
    forall p | p in wl ensures ListOk(db, live + {c}, p, wl[p]) {
      assert ListOk(db, live, p, wl[p]);
      assert forall i :: 0 <= i < |wl[p]| ==> LongWatcher(db, live, p, wl[p][i]);
    }
    forall p, i | p in wb && 0 <= i < |wb[p]| ensures BinWatcher(db, live + {c}, p, wb[p][i]) {
      assert BinWatcher(db, live, p, wb[p][i]);
    }
  }

  // Extending the arena by a clause that is not live yet.
  lemma Appended(db: Db, live: set<nat>, nbVars: nat, wl: Lists, wb: Lists, c: Clause)
    requires DbOk(db, live, nbVars) && LongOk(db, live, wl) && BinOk(db, live, wb) && ClauseOk(c, nbVars)
    ensures DbOk(db + [c], live, nbVars) && LongOk(db + [c], live, wl) && BinOk(db + [c], live, wb)
    ensures |db| !in live
  {
    var db' := db + [c];
    forall p | p in wl ensures ListOk(db', live, p, wl[p]) {
      assert ListOk(db, live, p, wl[p]);
      assert forall i :: 0 <= i < |wl[p]| ==> LongWatcher(db, live, p, wl[p][i]);
    }
    forall e | e in live && e < |db'| && |db'[e]| >= 3 ensures Listed(db', wl, e) {
      assert Listed(db, wl, e);
    }
    forall p, i | p in wb && 0 <= i < |wb[p]| ensures BinWatcher(db', live, p, wb[p][i]) {
      assert BinWatcher(db, live, p, wb[p][i]);
    }
    forall e | e in live && e < |db'| && |db'[e]| == 2 ensures Listed(db', wb, e) {
      assert Listed(db, wb, e);
    }
    forall e | 0 <= e < |db'| ensures ClauseOk(db'[e], nbVars) {
      assert e < |db| ==> ClauseOk(db[e], nbVars);
    }
  }
}
