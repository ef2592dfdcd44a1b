// Cutting-plane conflict analysis, solver/learn_pb.go: weakening, rounded division and addition of linear
// constraints over 0/1 variables. A weight w > 0 is the coefficient of the variable, w < 0 that of its
// negation; a constraint asks for a sum of at least `card`.
module CuttingPlanes {
  import opened Logic
  import opened Bindings

  function Abs(x: int): nat { if x < 0 then -x else x }

  function Min(a: nat, b: nat): nat { if a < b then a else b }

  // Go's division and remainder, which truncate toward zero.
  function Quot(a: int, b: int): int
    requires b > 0
  {
    if a >= 0 then a / b else -(-a / b)
  }

  function Rem(a: int, b: int): int
    requires b > 0
  {
    a - Quot(a, b) * b
  }

  // ----- meaning -----

  function Term(w: int, b: bool): nat { if w > 0 && b then w else if w < 0 && !b then -w else 0 }

  ghost function Value(ws: seq<int>, a: Assignment): nat
  {
    if ws == [] then 0 else var n := |ws| - 1; Value(ws[..n], a) + Term(ws[n], a(n))
  }

  ghost predicate Satisfies(a: Assignment, ws: seq<int>, card: int) { Value(ws, a) >= card }

  // The literal of weight w on variable v is false in m.
  predicate Falsified(m: Model, v: nat, w: int) { v < |m| && m[v] != 0 && w != 0 && (m[v] > 0) != (w > 0) }

  // The weight the constraint can still reach.
  ghost function Room(ws: seq<int>, m: Model): nat
  {
    if ws == [] then 0 else var n := |ws| - 1; Room(ws[..n], m) + if Falsified(m, n, ws[n]) then 0 else Abs(ws[n])
  }

  ghost function Slack(ws: seq<int>, card: int, m: Model): int { Room(ws, m) - card }

  // ----- addition -----

  function Cancel(w1: int, w2: int): nat { if w1 * w2 < 0 then Min(Abs(w1), Abs(w2)) else 0 }

  function Added(ws1: seq<int>, ws2: seq<int>): seq<int>
    requires |ws1| == |ws2|
  {
    seq(|ws1|, i requires 0 <= i < |ws1| => ws1[i] + ws2[i])
  }

  ghost function Cancelled(ws1: seq<int>, ws2: seq<int>): nat
    requires |ws1| == |ws2|
  {
    if ws1 == [] then 0
    else var n := |ws1| - 1; Cancelled(ws1[..n], ws2[..n]) + Cancel(ws1[n], ws2[n])
  }

  lemma SignOfProduct(x: int, y: int)
    ensures x * y < 0 <==> (x < 0 < y || y < 0 < x)
  {
    if x < 0 < y { MulNeg(-x, y); } else if y < 0 < x { MulNeg(-y, x); }
    else if x > 0 && y > 0 { MulPos(x, y); } else if x < 0 && y < 0 { MulPos(-x, -y); }
  }

  lemma MulPos(x: nat, y: nat)
    ensures x * y >= 0
  {
  }

  lemma MulNeg(x: int, y: int)
    requires x > 0 && y > 0
    ensures -x * y < 0 && y * -x < 0
  {
  }

  // Adding two constraints adds exactly what each has beyond its degree.
  lemma {:induction false} ClashExact(ws1: seq<int>, ws2: seq<int>, a: Assignment)
    requires |ws1| == |ws2|
    ensures Value(Added(ws1, ws2), a) == Value(ws1, a) + Value(ws2, a) - Cancelled(ws1, ws2)
  {
    if ws1 != [] {
      var n := |ws1| - 1;
      ClashExact(ws1[..n], ws2[..n], a);
      assert Added(ws1, ws2)[..n] == Added(ws1[..n], ws2[..n]);
      SignOfProduct(ws1[n], ws2[n]);
    }
  }

  // The resolvent holds wherever both parents do.
  lemma ClashImplied(ws1: seq<int>, card1: int, ws2: seq<int>, card2: int, a: Assignment)
    requires |ws1| == |ws2| && Satisfies(a, ws1, card1) && Satisfies(a, ws2, card2)
    ensures Satisfies(a, Added(ws1, ws2), card1 + card2 - Cancelled(ws1, ws2))
  {
    ClashExact(ws1, ws2, a);
  }

  // Under a partial assignment the slacks add up too, but for what cancels on free variables.
  lemma {:induction false} ClashRoom(ws1: seq<int>, ws2: seq<int>, m: Model)
    requires |ws1| == |ws2|
    ensures Room(Added(ws1, ws2), m) <= Room(ws1, m) + Room(ws2, m) - Cancelled(ws1, ws2)
    ensures (forall v :: 0 <= v < |ws1| && Cancel(ws1[v], ws2[v]) > 0 ==> v < |m| && m[v] != 0) ==>
              Room(Added(ws1, ws2), m) == Room(ws1, m) + Room(ws2, m) - Cancelled(ws1, ws2)
  {
    if ws1 != [] {
      var n := |ws1| - 1;
      ClashRoom(ws1[..n], ws2[..n], m);
      assert Added(ws1, ws2)[..n] == Added(ws1[..n], ws2[..n]);
      assert forall v :: 0 <= v < n ==> ws1[..n][v] == ws1[v] && ws2[..n][v] == ws2[v];
      ClashOne(ws1[n], ws2[n], n, m);
      hide Cancel, Abs, Falsified;
    }
  }

  lemma ClashOne(w1: int, w2: int, v: nat, m: Model)
    ensures RoomOf(w1 + w2, v, m) <= RoomOf(w1, v, m) + RoomOf(w2, v, m) - Cancel(w1, w2)
    ensures (Cancel(w1, w2) > 0 ==> v < |m| && m[v] != 0) ==>
              RoomOf(w1 + w2, v, m) == RoomOf(w1, v, m) + RoomOf(w2, v, m) - Cancel(w1, w2)
  {
    SignOfProduct(w1, w2);
  }

  // What one weight adds to the room.
  function RoomOf(w: int, v: nat, m: Model): nat { if Falsified(m, v, w) then 0 else Abs(w) }

  // ----- weakening and division -----

  // roundToOne drops a literal that is not false and whose weight is no multiple of c.
  predicate Dropped(m: Model, v: nat, w: int, c: int)
    requires c > 0
  {
    w != 0 && Rem(w, c) != 0 && !Falsified(m, v, w)
  }

  function Weakened(ws: seq<int>, m: Model, c: int): (r: seq<int>)
    requires c > 0
    ensures |r| == |ws|
  {
    seq(|ws|, i requires 0 <= i < |ws| => if Dropped(m, i, ws[i], c) then 0 else ws[i])
  }

  ghost function DroppedSum(ws: seq<int>, m: Model, c: int): nat
    requires c > 0
  {
    if ws == [] then 0
    else var n := |ws| - 1; DroppedSum(ws[..n], m, c) + if Dropped(m, n, ws[n], c) then Abs(ws[n]) else 0
  }

  function DivWeight(w: int, c: int): int
    requires c > 0
  {
    if w == 0 then 0 else if Rem(w, c) == 0 then Quot(w, c) else if w > 0 then Quot(w, c) + 1 else Quot(w, c) - 1
  }

  function DivCard(card: int, c: int): int
    requires c > 0
  {
    if Rem(card, c) == 0 then Quot(card, c) else Quot(card, c) + 1
  }

  function Divided(ws: seq<int>, c: int): (r: seq<int>)
    requires c > 0
    ensures |r| == |ws|
  {
    seq(|ws|, i requires 0 <= i < |ws| => DivWeight(ws[i], c))
  }

  lemma QuotRem(a: int, c: int)
    requires c > 0
    ensures a == Quot(a, c) * c + Rem(a, c)
    ensures a >= 0 ==> Quot(a, c) >= 0 && 0 <= Rem(a, c) < c
    ensures a <= 0 ==> Quot(a, c) <= 0 && -c < Rem(a, c) <= 0
    ensures Quot(-a, c) == -Quot(a, c) && Rem(-a, c) == -Rem(a, c)
  {
  }

  // The quotient a/c rounded up.
  lemma CeilUp(a: nat, c: int)
    requires a > 0 && c > 0
    ensures var d := if a % c == 0 then a / c else a / c + 1;
            d > 0 && d * c >= a && (d - 1) * c < a && (a % c == 0 ==> d * c == a) && (a == c ==> d == 1)
  {
    assert a == (a / c) * c + a % c;
    Distribute(a / c, 1, c);
    Distribute(a / c, -1, c);
    if a == c {
      assert a / c == 1;
    }
  }

  // Weights are divided away from zero.
  lemma DivWeightUp(w: int, c: int)
    requires c > 0
    ensures Abs(DivWeight(w, c)) * c >= Abs(w)
    ensures w > 0 ==> DivWeight(w, c) > 0
    ensures w < 0 ==> DivWeight(w, c) < 0
    ensures Rem(w, c) == 0 ==> Abs(DivWeight(w, c)) * c == Abs(w)
    ensures Abs(w) == c ==> Abs(DivWeight(w, c)) == 1
  {
    if w != 0 {
      CeilUp(Abs(w), c);
      SignSymmetric(Abs(w), c);
      assert DivWeight(w, c) == if w > 0 then DivWeight(Abs(w), c) else -DivWeight(Abs(w), c);
    }
  }

  lemma SignSymmetric(a: int, c: int)
    requires a > 0 && c > 0
    ensures Rem(a, c) == a % c && Rem(-a, c) == -(a % c)
    ensures DivWeight(a, c) == if a % c == 0 then a / c else a / c + 1
    ensures DivWeight(-a, c) == -DivWeight(a, c)
  {
    assert a == (a / c) * c + a % c;
  }

  // The divided degree is the rounded-up quotient, except that a negative degree that is no multiple is
  // rounded up once more.
  lemma DivCardCeil(card: int, c: int)
    requires c > 0
    ensures card >= 0 ==> DivCard(card, c) * c >= card && (DivCard(card, c) - 1) * c < card
    ensures -c < card < 0 ==> DivCard(card, c) == 1
    ensures card <= -c ==> DivCard(card, c) <= 0
  {
    QuotRem(card, c);
    if -c < card < 0 {
      SmallQuot(-card, c);
    } else if card <= -c {
      SmallQuotNeg(-card, c);
    }
  }

  lemma SmallQuot(a: nat, c: nat)
    requires 0 < a < c
    ensures a / c == 0
  {
  }

  lemma SmallQuotNeg(a: nat, c: nat)
    requires a >= c > 0
    ensures a / c >= 1
  {
  }

  lemma {:induction false} WeakenValue(ws: seq<int>, m: Model, c: int, a: Assignment)
    requires c > 0
    ensures Value(Weakened(ws, m, c), a) >= Value(ws, a) - DroppedSum(ws, m, c)
  {
    if ws != [] {
      var n := |ws| - 1;
      WeakenValue(ws[..n], m, c, a);
      assert Weakened(ws, m, c)[..n] == Weakened(ws[..n], m, c);
    }
  }

  lemma {:induction false} WeakenRoom(ws: seq<int>, m: Model, c: int)
    requires c > 0
    ensures Room(Weakened(ws, m, c), m) == Room(ws, m) - DroppedSum(ws, m, c)
  {
    if ws != [] {
      var n := |ws| - 1;
      WeakenRoom(ws[..n], m, c);
      assert Weakened(ws, m, c)[..n] == Weakened(ws[..n], m, c);
    }
  }

  lemma {:induction false} DivideValue(ws: seq<int>, c: int, a: Assignment)
    requires c > 0
    ensures Value(Divided(ws, c), a) * c >= Value(ws, a)
  {
    if ws != [] {
      var n := |ws| - 1;
      DivideValue(ws[..n], c, a);
      assert Divided(ws, c)[..n] == Divided(ws[..n], c);
      DivWeightUp(ws[n], c);
      Distribute(Value(Divided(ws, c)[..n], a), Term(Divided(ws, c)[n], a(n)), c);
    }
  }

  lemma Distribute(x: int, y: int, c: int)
    ensures (x + y) * c == x * c + y * c
  {
  }

  lemma Cancels(x: int, y: int, c: int)
    requires c > 0 && x * c > y * c
    ensures x > y
  {
    Distribute(y - x, x, c);
    NoGain(y - x, c);
  }

  lemma NoGain(d: int, c: int)
    requires c > 0
    ensures d >= 0 ==> d * c >= 0
  {
  }

  // Division keeps the solutions exactly when the degree is not strictly between -c and 0.
  lemma DivideImplied(ws: seq<int>, card: int, c: int)
    requires c > 0
    ensures (forall a: Assignment :: Satisfies(a, ws, card) ==> Satisfies(a, Divided(ws, c), DivCard(card, c)))
            <==> !(-c < card < 0)
  {
    DivCardCeil(card, c);
    if -c < card < 0 {
      var a: Assignment := (v: nat) => v < |ws| && ws[v] < 0;
      NoneTrue(ws, a);
      NoneTrue(Divided(ws, c), a) by {
        forall v | 0 <= v < |ws| ensures Term(Divided(ws, c)[v], a(v)) == 0 {
          DivWeightUp(ws[v], c);
        }
      }
      assert Satisfies(a, ws, card) && !Satisfies(a, Divided(ws, c), DivCard(card, c));
    } else if card >= 0 {
      forall a: Assignment | Satisfies(a, ws, card) ensures Satisfies(a, Divided(ws, c), DivCard(card, c)) {
        DivideValue(ws, c, a);
        Cancels(Value(Divided(ws, c), a), DivCard(card, c) - 1, c);
      }
    }
  }

  lemma {:induction false} NoneTrue(ws: seq<int>, a: Assignment)
    requires forall v :: 0 <= v < |ws| ==> Term(ws[v], a(v)) == 0
    ensures Value(ws, a) == 0
  {
    if ws != [] {
      var n := |ws| - 1;
      assert forall v :: 0 <= v < n ==> ws[..n][v] == ws[v];
      NoneTrue(ws[..n], a);
    }
  }

  // ----- rounding a constraint to weight 1 on a variable -----

  function Rounded(ws: seq<int>, m: Model, v: nat): seq<int>
    requires v < |ws| && ws[v] != 0
  {
    var c := Abs(ws[v]);
    if c == 1 then ws else Divided(Weakened(ws, m, c), c)
  }

  ghost function RoundedCard(ws: seq<int>, card: int, m: Model, v: nat): int
    requires v < |ws| && ws[v] != 0
  {
    var c := Abs(ws[v]);
    if c == 1 then card else DivCard(card - DroppedSum(ws, m, c), c)
  }

  // What rounding does to one weight: a multiple of c is divided exactly; of the others, one of a false literal is
  // divided away from zero, and one of any other literal is lost.
  ghost predicate RoundedTo(w: int, falsified: bool, c: int, r: int)
  {
    (forall k :: w == k * c ==> r == k)
    && (falsified && w > 0 ==> (r - 1) * c < w <= r * c)
    && (falsified && w < 0 ==> r * c <= w < (r + 1) * c)
    && (!falsified && (forall k :: w != k * c) ==> r == 0)
  }

  // The weights lost on the way from ws to rs.
  ghost function Lost(ws: seq<int>, rs: seq<int>): nat
    requires |ws| == |rs|
  {
    if ws == [] then 0
    else var n := |ws| - 1; Lost(ws[..n], rs[..n]) + if rs[n] == 0 then Abs(ws[n]) else 0
  }

  // The degree left, divided: rounded up, and a negative one that is no multiple rounded up once more.
  ghost predicate CardRoundedTo(left: int, c: int, r: int)
  {
    (forall k :: left == k * c ==> r == k)
    && (left >= 0 ==> (r - 1) * c < left <= r * c)
    && (left < 0 && (forall k :: left != k * c) ==> (r - 2) * c < left < (r - 1) * c)
  }

  lemma RoundedExact(ws: seq<int>, card: int, m: Model, v: nat)
    requires v < |ws| && ws[v] != 0
    ensures var c, rs := Abs(ws[v]), Rounded(ws, m, v);
            && |rs| == |ws| && (forall u :: 0 <= u < |ws| ==> RoundedTo(ws[u], Falsified(m, u, ws[u]), c, rs[u]))
            && CardRoundedTo(card - Lost(ws, rs), c, RoundedCard(ws, card, m, v))
  {
    var c := Abs(ws[v]);
    forall u | 0 <= u < |ws| ensures RoundedTo(ws[u], Falsified(m, u, ws[u]), c, Rounded(ws, m, v)[u]) {
      if c == 1 {
        ByOne(ws[u], Falsified(m, u, ws[u]));
      } else {
        WeightRounded(ws, m, u, c);
      }
    }
    hide *;
    RoundedCardExact(ws, card, m, v);
  }

  lemma RoundedCardExact(ws: seq<int>, card: int, m: Model, v: nat)
    requires v < |ws| && ws[v] != 0
    ensures |Rounded(ws, m, v)| == |ws|
    ensures CardRoundedTo(card - Lost(ws, Rounded(ws, m, v)), Abs(ws[v]), RoundedCard(ws, card, m, v))
  {
    hide CardRoundedTo, DivCard, Lost, DroppedSum, Divided, Weakened;
    var c := Abs(ws[v]);
    if c == 1 {
      NoneLost(ws);
      ByOne(card, false);
    } else {
      LostDropped(ws, m, c);
      CardRounded(card - DroppedSum(ws, m, c), c);
    }
  }

  lemma ByOne(w: int, falsified: bool)
    ensures RoundedTo(w, falsified, 1, w) && CardRoundedTo(w, 1, w)
  {
    assert w == w * 1;
  }

  lemma {:induction false} NoneLost(ws: seq<int>)
    ensures Lost(ws, ws) == 0
  {
    if ws != [] {
      NoneLost(ws[..|ws| - 1]);
    }
  }

  // What is dropped is what is lost: the weights that become 0.
  lemma {:induction false} LostDropped(ws: seq<int>, m: Model, c: int)
    requires c > 0
    ensures Lost(ws, Divided(Weakened(ws, m, c), c)) == DroppedSum(ws, m, c)
  {
    if ws != [] {
      var n := |ws| - 1;
      LostDropped(ws[..n], m, c);
      assert Divided(Weakened(ws, m, c), c)[..n] == Divided(Weakened(ws[..n], m, c), c);
      DivWeightUp(ws[n], c);
    }
  }

  lemma Multiple(w: int, c: int)
    requires c > 0
    ensures Rem(w, c) == 0 ==> w == Quot(w, c) * c
    ensures forall k :: w == k * c ==> Rem(w, c) == 0 && Quot(w, c) == k
  {
    QuotRem(w, c);
    var q, r := Quot(w, c), Rem(w, c);
    forall k | w == k * c ensures r == 0 && q == k {
      Distribute(k, -q, c);
      assert r == (k - q) * c;
      Cancels(1, k - q, c);
      Cancels(k - q, -1, c);
    }
  }

  lemma WeightRounded(ws: seq<int>, m: Model, u: nat, c: int)
    requires c > 0 && u < |ws|
    ensures RoundedTo(ws[u], Falsified(m, u, ws[u]), c, Divided(Weakened(ws, m, c), c)[u])
  {
    var w := ws[u];
    Multiple(w, c);
    DivWeightUp(w, c);
    hide Quot, Rem;
    if w != 0 {
      DivWeightNear(w, c);
    }
  }

  lemma DivWeightNear(w: int, c: int)
    requires c > 0 && w != 0
    ensures w > 0 ==> (DivWeight(w, c) - 1) * c < w <= DivWeight(w, c) * c
    ensures w < 0 ==> DivWeight(w, c) * c <= w < (DivWeight(w, c) + 1) * c
  {
    CeilUp(Abs(w), c);
    SignSymmetric(Abs(w), c);
    var d := DivWeight(Abs(w), c);
    Distribute(d, -1, c);
    Distribute(d, -d, c);
  }

  lemma CardRounded(left: int, c: int)
    requires c > 0
    ensures CardRoundedTo(left, c, DivCard(left, c))
  {
    Multiple(left, c);
    QuotRem(left, c);
    var q := Quot(left, c);
    Distribute(q, 1, c);
    Distribute(q, -1, c);
    hide Quot, Rem;
  }

  // After weakening, what the constraint can still reach is a multiple of c.
  lemma {:induction false} RoomDivides(ws: seq<int>, m: Model, c: int)
    requires c > 0
    ensures Room(Divided(Weakened(ws, m, c), c), m) * c == Room(Weakened(ws, m, c), m)
  {
    if ws != [] {
      var n := |ws| - 1;
      RoomDivides(ws[..n], m, c);
      var w := Weakened(ws, m, c);
      assert w[..n] == Weakened(ws[..n], m, c);
      assert Divided(w, c)[..n] == Divided(w[..n], c);
      DivWeightUp(w[n], c);
      QuotRem(0, c);
      Distribute(Room(Divided(w, c)[..n], m), if Falsified(m, n, Divided(w, c)[n]) then 0 else Abs(Divided(w, c)[n]), c);
    }
  }

  lemma RoundCard(r: nat, k: int, c: int, bound: int)
    requires c > 1 && k > 0 && r * c - k < bound * c
    ensures r - DivCard(k, c) < bound
  {
    DivCardCeil(k, c);
    Distribute(r, -bound, c);
    Cancels(DivCard(k, c), r - bound, c);
  }

  // The heart of the conflict analysis. With a slack below `bound` times the weight of v, where bound is 0
  // for the conflict and 1 for a reason that forced v, rounding gives v weight 1 and a slack below `bound`,
  // and the rounded constraint follows from the original one.
  lemma RoundSlack(ws: seq<int>, card: int, m: Model, v: nat, bound: int)
    requires v < |ws| && ws[v] != 0 && 0 <= bound <= 1 && Slack(ws, card, m) < bound * Abs(ws[v])
    requires bound == 1 ==> !Falsified(m, v, ws[v])
    ensures var ws', card' := Rounded(ws, m, v), RoundedCard(ws, card, m, v);
            && |ws'| == |ws| && Abs(ws'[v]) == 1 && (ws'[v] > 0 <==> ws[v] > 0)
            && Slack(ws', card', m) < bound
            && forall a: Assignment :: Satisfies(a, ws, card) ==> Satisfies(a, ws', card')
  {
    var c := Abs(ws[v]);
    if c > 1 {
      var w, k := Weakened(ws, m, c), card - DroppedSum(ws, m, c);
      OwnMultiple(ws[v]);
      assert w[v] == ws[v];
      DivWeightUp(w[v], c);
      WeakenRoom(ws, m, c);
      RoomDivides(ws, m, c);
      var r := Room(Divided(w, c), m);
      assert r * c - k < bound * c;
      if bound == 1 {
        RoomAtLeast(w, m, v);
      }
      RoundCard(r, k, c, bound);
      DivideImplied(w, k, c);
      forall a: Assignment | Satisfies(a, ws, card) ensures Satisfies(a, Divided(w, c), DivCard(k, c)) {
        WeakenValue(ws, m, c, a);
        assert Satisfies(a, w, k);
      }
    }
  }

  lemma RoundedUnit(ws: seq<int>, m: Model, v: nat)
    requires v < |ws| && ws[v] != 0
    ensures |Rounded(ws, m, v)| == |ws|
    ensures Abs(Rounded(ws, m, v)[v]) == 1 && (Rounded(ws, m, v)[v] > 0 <==> ws[v] > 0)
  {
    OwnMultiple(ws[v]);
    DivWeightUp(ws[v], Abs(ws[v]));
  }

  // Rounding never changes the sign of a weight it keeps.
  lemma RoundedSign(ws: seq<int>, m: Model, v: nat, u: nat)
    requires v < |ws| && ws[v] != 0 && u < |ws|
    ensures |Rounded(ws, m, v)| == |ws|
    ensures var w := Rounded(ws, m, v)[u]; w != 0 ==> ws[u] != 0 && (w > 0 <==> ws[u] > 0)
  {
    DivWeightUp(Weakened(ws, m, Abs(ws[v]))[u], Abs(ws[v]));
  }

  // Freeing the one variable v, and keeping everything else that is falsified, gains at most the weight of v.
  lemma {:induction false} RoomFreed(ws: seq<int>, m: Model, m': Model, v: nat)
    requires v < |ws|
    requires forall u :: 0 <= u < |ws| && u != v && Falsified(m, u, ws[u]) ==> Falsified(m', u, ws[u])
    ensures Room(ws, m') <= Room(ws, m) + Abs(ws[v])
  {
    var n := |ws| - 1;
    assert forall u :: 0 <= u < n ==> ws[..n][u] == ws[u];
    if v < n {
      RoomFreed(ws[..n], m, m', v);
    } else if n > 0 {
      RoomFewer(ws[..n], m, m');
    }
  }

  lemma {:induction false} RoomFewer(ws: seq<int>, m: Model, m': Model)
    requires forall u :: 0 <= u < |ws| && Falsified(m, u, ws[u]) ==> Falsified(m', u, ws[u])
    ensures Room(ws, m') <= Room(ws, m)
  {
    if ws != [] {
      var n := |ws| - 1;
      assert forall u :: 0 <= u < n ==> ws[..n][u] == ws[u];
      RoomFewer(ws[..n], m, m');
    }
  }

  // Bindings that falsify the same weights leave the same room.
  lemma {:induction false} RoomSame(ws: seq<int>, m: Model, m': Model)
    requires forall v :: 0 <= v < |ws| ==> Falsified(m, v, ws[v]) == Falsified(m', v, ws[v])
    ensures Room(ws, m) == Room(ws, m')
  {
    if ws != [] {
      var n := |ws| - 1;
      assert forall v :: 0 <= v < n ==> ws[..n][v] == ws[v];
      RoomSame(ws[..n], m, m');
    }
  }

  // An assignment that follows m reaches no more than the room of m, and less by the weight of v when it
  // makes the free literal of v false.
  lemma {:induction false} ValueRoom(ws: seq<int>, a: Assignment, m: Model, v: nat)
    requires Follows(a, m) && v < |ws|
    ensures Value(ws, a) <= Room(ws, m)
    ensures Term(ws[v], a(v)) == 0 && !Falsified(m, v, ws[v]) ==> Value(ws, a) <= Room(ws, m) - Abs(ws[v])
  {
    var n := |ws| - 1;
    if v < n {
      ValueRoom(ws[..n], a, m, v);
    } else if n > 0 {
      ValueRoom(ws[..n], a, m, 0);
    }
  }

  lemma OwnMultiple(w: int)
    requires w != 0
    ensures Rem(w, Abs(w)) == 0
  {
    QuotRem(w, Abs(w));
    if w > 0 {
      assert w / w == 1;
    } else {
      assert -w / -w == 1;
    }
  }

  lemma {:induction false} RoomAtLeast(ws: seq<int>, m: Model, v: nat)
    requires v < |ws| && !Falsified(m, v, ws[v])
    ensures Room(ws, m) >= Abs(ws[v])
  {
    var n := |ws| - 1;
    if v < n {
      RoomAtLeast(ws[..n], m, v);
    }
  }

  // One resolution step: the conflict falsifies v, the reason forced v. The resolvent no longer mentions v,
  // is still falsified by the bindings, and holds wherever both constraints do.
  lemma ResolveSound(ws1: seq<int>, card1: int, ws2: seq<int>, card2: int, m: Model, v: nat)
    requires |ws1| == |ws2| && v < |ws1| && ws1[v] * ws2[v] < 0
    requires Slack(ws1, card1, m) < 0
    requires !Falsified(m, v, ws2[v]) && Slack(ws2, card2, m) < Abs(ws2[v])
    ensures ws1[v] != 0 && ws2[v] != 0
    ensures var r1, r2 := Rounded(ws1, m, v), Rounded(ws2, m, v);
            var card := RoundedCard(ws1, card1, m, v) + RoundedCard(ws2, card2, m, v) - Cancelled(r1, r2);
            && Added(r1, r2)[v] == 0 && Slack(Added(r1, r2), card, m) < 0
            && forall a: Assignment :: Satisfies(a, ws1, card1) && Satisfies(a, ws2, card2)
                 ==> Satisfies(a, Added(r1, r2), card)
  {
    SignOfProduct(ws1[v], ws2[v]);
    RoundSlack(ws1, card1, m, v, 0);
    RoundSlack(ws2, card2, m, v, 1);
    var r1, r2 := Rounded(ws1, m, v), Rounded(ws2, m, v);
    var c1, c2 := RoundedCard(ws1, card1, m, v), RoundedCard(ws2, card2, m, v);
    ClashRoom(r1, r2, m);
    forall a: Assignment | Satisfies(a, ws1, card1) && Satisfies(a, ws2, card2)
      ensures Satisfies(a, Added(r1, r2), c1 + c2 - Cancelled(r1, r2))
    {
      ClashImplied(r1, c1, r2, c2, a);
    }
  }
}
