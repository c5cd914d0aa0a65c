/**
  Smooth weighted round-robin over a mixture of datasets
  (dressage/rollout/data_source.py, `_next_mixture_sample`).

  Weights and running credits are exact reals; the source uses floats.
 */
module MixtureScheduler {

  function Sum(xs: seq<real>): real {
    if xs == [] then 0.0 else xs[0] + Sum(xs[1..])
  }

  function Total(counts: seq<nat>): nat {
    if counts == [] then 0 else counts[0] + Total(counts[1..])
  }

  /** The configuration loader rejects an empty mixture and any weight that is not positive. */
  predicate ValidWeights(w: seq<real>) {
    |w| > 0 && forall i | 0 <= i < |w| :: w[i] > 0.0
  }

  /** `max` over indices keyed by (credit, -index): the largest credit, the earliest index on ties. */
  predicate IsPick(credit: seq<real>, k: nat) {
    && k < |credit|
    && (forall j | 0 <= j < |credit| :: credit[j] <= credit[k])
    && (forall j | 0 <= j < k :: credit[j] < credit[k])
  }

  function Charge(credit: seq<real>, w: seq<real>): (r: seq<real>)
    requires |credit| == |w|
    ensures |r| == |w| && forall i | 0 <= i < |w| :: r[i] == credit[i] + w[i]
  {
    seq(|w|, i requires 0 <= i < |w| => credit[i] + w[i])
  }

  lemma {:induction false} PickExists(credit: seq<real>)
    requires |credit| > 0
    ensures exists k: nat :: IsPick(credit, k)
  {
    if |credit| == 1 {
      assert IsPick(credit, 0);
    } else {
      var last := |credit| - 1;
      PickExists(credit[..last]);
      var k: nat :| IsPick(credit[..last], k);
      assert forall j | 0 <= j < last :: credit[..last][j] == credit[j];
      assert IsPick(credit, if credit[last] > credit[k] then last else k);
    }
  }

  ghost function Pick(credit: seq<real>): (k: nat)
    requires |credit| > 0
    ensures IsPick(credit, k)
  {
    PickExists(credit);
    var k: nat :| IsPick(credit, k);
    k
  }

  lemma PickUnique(credit: seq<real>, a: nat, b: nat)
    requires IsPick(credit, a) && IsPick(credit, b)
    ensures a == b
  {
    assert credit[a] <= credit[b] && credit[b] <= credit[a];
  }

  /** Credits and pick counts after some number of picks. */
  datatype Turns = Turns(credit: seq<real>, counts: seq<nat>)

  ghost function Advance(w: seq<real>, t: Turns): (r: Turns)
    requires |w| > 0 && |t.credit| == |t.counts| == |w|
    ensures |r.credit| == |r.counts| == |w|
  {
    var charged := Charge(t.credit, w);
    var k := Pick(charged);
    Turns(charged[k := charged[k] - Sum(w)], t.counts[k := t.counts[k] + 1])
  }

  ghost function After(w: seq<real>, n: nat): (t: Turns)
    requires |w| > 0
    ensures |t.credit| == |t.counts| == |w|
  {
    if n == 0 then
      Turns(seq(|w|, i => 0.0), seq(|w|, i => 0))
    else
      Advance(w, After(w, n - 1))
  }

  /** Any pick among the charged credits is the one that is billed. */
  lemma AfterNext(w: seq<real>, n: nat, charged: seq<real>, k: nat)
    requires |w| > 0 && charged == Charge(After(w, n).credit, w) && IsPick(charged, k)
    ensures After(w, n + 1).credit == charged[k := charged[k] - Sum(w)]
    ensures After(w, n + 1).counts == After(w, n).counts[k := After(w, n).counts[k] + 1]
  {
    PickUnique(charged, k, Pick(charged));
  }

  // ------------------------------------------------------------------ sums

  lemma {:induction false} SumCharge(credit: seq<real>, w: seq<real>)
    requires |credit| == |w|
    ensures Sum(Charge(credit, w)) == Sum(credit) + Sum(w)
  {
    if |w| > 0 {
      assert Charge(credit, w)[1..] == Charge(credit[1..], w[1..]);
      SumCharge(credit[1..], w[1..]);
    }
  }

  lemma {:induction false} SumUpdate(xs: seq<real>, k: nat, v: real)
    requires k < |xs|
    ensures Sum(xs[k := v]) == Sum(xs) - xs[k] + v
  {
    if k == 0 {
      assert xs[0 := v][1..] == xs[1..];
    } else {
      assert xs[k := v][1..] == xs[1..][k - 1 := v];
      SumUpdate(xs[1..], k - 1, v);
    }
  }

  lemma {:induction false} TotalUpdate(xs: seq<nat>, k: nat, v: nat)
    requires k < |xs|
    ensures Total(xs[k := v]) == Total(xs) - xs[k] + v
  {
    if k == 0 {
      assert xs[0 := v][1..] == xs[1..];
    } else {
      assert xs[k := v][1..] == xs[1..][k - 1 := v];
      TotalUpdate(xs[1..], k - 1, v);
    }
  }

  lemma {:induction false} SumZeros(n: nat)
    ensures Sum(seq(n, i => 0.0)) == 0.0
    ensures Total(seq(n, i => 0)) == 0
  {
    if n > 0 {
      assert seq(n, i => 0.0)[1..] == seq(n - 1, i => 0.0);
      assert seq(n, i => 0)[1..] == seq(n - 1, i => 0);
      SumZeros(n - 1);
    }
  }

  lemma {:induction false} SumAtMost(xs: seq<real>, bound: real)
    requires forall i | 0 <= i < |xs| :: xs[i] <= bound
    ensures Sum(xs) > 0.0 ==> bound > 0.0
  {
    if xs != [] {
      SumAtMost(xs[1..], bound);
    }
  }

  lemma {:induction false} SumPositive(w: seq<real>)
    requires forall i | 0 <= i < |w| :: w[i] > 0.0
    ensures Sum(w) >= 0.0 && (w != [] ==> Sum(w) > 0.0)
  {
    if w != [] {
      SumPositive(w[1..]);
    }
  }

  // ------------------------------------------------------------ invariants

  /** The picks made are all accounted for and the credits always sum to zero. */
  lemma {:induction false} CreditsBalance(w: seq<real>, n: nat)
    requires ValidWeights(w)
    ensures Sum(After(w, n).credit) == 0.0
    ensures Total(After(w, n).counts) == n
  {
    if n == 0 {
      SumZeros(|w|);
    } else {
      CreditsBalance(w, n - 1);
      AdvanceSums(w, After(w, n - 1));
    }
  }

  lemma AdvanceSums(w: seq<real>, t: Turns)
    requires |w| > 0 && |t.credit| == |t.counts| == |w|
    ensures Sum(Advance(w, t).credit) == Sum(t.credit)
    ensures Total(Advance(w, t).counts) == Total(t.counts) + 1
  {
    var charged := Charge(t.credit, w);
    var k := Pick(charged);
    SumCharge(t.credit, w);
    SumUpdate(charged, k, charged[k] - Sum(w));
    TotalUpdate(t.counts, k, t.counts[k] + 1);
  }

  /** n * x, by repeated addition so that the invariants below stay linear. */
  function Times(n: nat, x: real): real {
    if n == 0 then 0.0 else Times(n - 1, x) + x
  }

  lemma {:induction false} TimesIsProduct(n: nat, x: real)
    ensures Times(n, x) == n as real * x
  {
    if n > 0 {
      TimesIsProduct(n - 1, x);
    }
  }

  lemma {:induction false} TimesOfInteger(n: nat, k: nat)
    ensures Times(n, k as real) == (n * k) as real
  {
    if n > 0 {
      TimesOfInteger(n - 1, k);
      assert n * k == (n - 1) * k + k;
    }
  }

  lemma AdvanceEffect(w: seq<real>, t: Turns, i: nat)
    requires |w| > 0 && |t.credit| == |t.counts| == |w| && i < |w|
    ensures var r := Advance(w, t);
            || (r.credit[i] == t.credit[i] + w[i] && r.counts[i] == t.counts[i])
            || (r.credit[i] == t.credit[i] + w[i] - Sum(w) && r.counts[i] == t.counts[i] + 1)
  {
  }

  /** The credit of dataset i after n picks, in repeated additions. */
  ghost predicate HasShare(w: seq<real>, t: Turns, n: nat, i: nat)
    requires |t.credit| == |t.counts| == |w| && i < |w|
  {
    t.credit[i] == Times(n, w[i]) - Times(t.counts[i], Sum(w))
  }

  lemma {:induction false} CreditInTimes(w: seq<real>, n: nat, i: nat)
    requires ValidWeights(w) && i < |w|
    ensures HasShare(w, After(w, n), n, i)
  {
    if n > 0 {
      CreditInTimes(w, n - 1, i);
      AdvanceKeepsShare(w, After(w, n - 1), n - 1, i);
    }
  }

  /** `credit` is n picks' worth of weight x less c picks at the full total. */
  predicate ShareMinusServed(credit: real, n: nat, x: real, c: nat, total: real) {
    credit == n as real * x - c as real * total
  }

  lemma TimesAreProducts(credit: real, n: nat, x: real, c: nat, total: real)
    requires credit == Times(n, x) - Times(c, total)
    ensures ShareMinusServed(credit, n, x, c, total)
  {
    TimesIsProduct(n, x);
    TimesIsProduct(c, total);
  }

  /** A dataset's credit is its fair share so far minus what it was served. */
  lemma CreditIsShareMinusServed(w: seq<real>, n: nat, i: nat)
    requires ValidWeights(w) && i < |w|
    ensures ShareMinusServed(After(w, n).credit[i], n, w[i], After(w, n).counts[i], Sum(w))
  {
    CreditInTimes(w, n, i);
    TimesAreProducts(After(w, n).credit[i], n, w[i], After(w, n).counts[i], Sum(w));
  }

  lemma AdvanceKeepsShare(w: seq<real>, t: Turns, n: nat, i: nat)
    requires |w| > 0 && |t.credit| == |t.counts| == |w| && i < |w|
    requires HasShare(w, t, n, i)
    ensures HasShare(w, Advance(w, t), n + 1, i)
  {
    AdvanceEffect(w, t, i);
  }

  /** Credits sum to zero and each stays above minus the total. */
  ghost predicate InBalance(w: seq<real>, t: Turns) {
    |t.credit| == |t.counts| == |w| && Sum(t.credit) == 0.0 && forall i | 0 <= i < |w| :: t.credit[i] > -Sum(w)
  }

  lemma StartsInBalance(w: seq<real>)
    requires ValidWeights(w)
    ensures InBalance(w, After(w, 0))
  {
    SumPositive(w);
    SumZeros(|w|);
  }

  /** The richest dataset holds a positive credit when it is billed. */
  lemma AdvanceStaysAbove(w: seq<real>, t: Turns, i: nat)
    requires ValidWeights(w) && |t.credit| == |t.counts| == |w| && i < |w|
    requires Sum(t.credit) == 0.0 && t.credit[i] > -Sum(w)
    ensures Advance(w, t).credit[i] > -Sum(w)
  {
    var charged := Charge(t.credit, w);
    var k := Pick(charged);
    SumPositive(w);
    SumCharge(t.credit, w);
    SumAtMost(charged, charged[k]);
  }

  lemma AdvanceStaysInBalance(w: seq<real>, t: Turns)
    requires ValidWeights(w) && InBalance(w, t)
    ensures InBalance(w, Advance(w, t))
  {
    AdvanceSums(w, t);
    forall i | 0 <= i < |w| ensures Advance(w, t).credit[i] > -Sum(w) {
      AdvanceStaysAbove(w, t, i);
    }
  }

  lemma {:induction false} AlwaysInBalance(w: seq<real>, n: nat)
    requires ValidWeights(w)
    ensures InBalance(w, After(w, n))
  {
    if n == 0 {
      StartsInBalance(w);
    } else {
      AlwaysInBalance(w, n - 1);
      AdvanceStaysInBalance(w, After(w, n - 1));
    }
  }

  /** No credit ever falls to minus the total weight. */
  lemma CreditAboveMinusTotal(w: seq<real>, n: nat, i: nat)
    requires ValidWeights(w) && i < |w|
    ensures After(w, n).credit[i] > -Sum(w)
  {
    AlwaysInBalance(w, n);
  }

  /** Having served c picks of n is less than one full pick more than the share of weight x. */
  predicate NotAPickAhead(n: nat, x: real, c: nat, total: real) {
    c as real * total < n as real * x + total
  }

  /** It is less than `others` full picks short of the share; with no others it is the share. */
  predicate NotFarBehind(n: nat, x: real, c: nat, total: real, others: nat) {
    && n as real * x - c as real * total <= others as real * total
    && (others > 0 ==> n as real * x - c as real * total < others as real * total)
  }

  lemma CreditBounds(credit: real, n: nat, x: real, c: nat, total: real, others: nat)
    requires ShareMinusServed(credit, n, x, c, total)
    ensures credit > -total ==> NotAPickAhead(n, x, c, total)
    ensures credit <= Times(others, total) && (others > 0 ==> credit < Times(others, total)) ==>
              NotFarBehind(n, x, c, total, others)
  {
    TimesIsProduct(others, total);
  }

  /** No dataset is ever a full pick ahead of its share. */
  lemma NeverAFullPickAhead(w: seq<real>, n: nat, i: nat)
    requires ValidWeights(w) && i < |w|
    ensures NotAPickAhead(n, w[i], After(w, n).counts[i], Sum(w))
  {
    CreditIsShareMinusServed(w, n, i);
    CreditAboveMinusTotal(w, n, i);
    CreditBounds(After(w, n).credit[i], n, w[i], After(w, n).counts[i], Sum(w), 0);
  }

  lemma {:induction false} SumAbove(xs: seq<real>, bound: real)
    requires forall j | 0 <= j < |xs| :: xs[j] > -bound
    ensures Sum(xs) >= -Times(|xs|, bound) && (xs != [] ==> Sum(xs) > -Times(|xs|, bound))
  {
    if xs != [] {
      SumAbove(xs[1..], bound);
    }
  }

  lemma {:induction false} OthersAbove(xs: seq<real>, i: nat, bound: real)
    requires i < |xs| && forall j | 0 <= j < |xs| :: xs[j] > -bound
    ensures Sum(xs) - xs[i] >= -Times(|xs| - 1, bound) && (|xs| > 1 ==> Sum(xs) - xs[i] > -Times(|xs| - 1, bound))
  {
    if i == 0 {
      SumAbove(xs[1..], bound);
    } else {
      OthersAbove(xs[1..], i - 1, bound);
    }
  }

  lemma CreditBelowOthers(w: seq<real>, n: nat, i: nat)
    requires ValidWeights(w) && i < |w|
    ensures After(w, n).credit[i] <= Times(|w| - 1, Sum(w))
    ensures |w| > 1 ==> After(w, n).credit[i] < Times(|w| - 1, Sum(w))
  {
    var credit := After(w, n).credit;
    CreditsBalance(w, n);
    forall j | 0 <= j < |credit| ensures credit[j] > -Sum(w) {
      CreditAboveMinusTotal(w, n, j);
    }
    OthersAbove(credit, i, Sum(w));
  }

  /** No dataset is ever as many full picks behind its share as there are other datasets. */
  lemma NeverAsFarBehindAsTheOthers(w: seq<real>, n: nat, i: nat)
    requires ValidWeights(w) && i < |w|
    ensures NotFarBehind(n, w[i], After(w, n).counts[i], Sum(w), |w| - 1)
  {
    CreditIsShareMinusServed(w, n, i);
    CreditBelowOthers(w, n, i);
    CreditBounds(After(w, n).credit[i], n, w[i], After(w, n).counts[i], Sum(w), |w| - 1);
  }

  // ---------------------------------------------------------------- period

  function Reals(ks: seq<nat>): (r: seq<real>)
    ensures |r| == |ks| && forall i | 0 <= i < |ks| :: r[i] == ks[i] as real
  {
    seq(|ks|, i requires 0 <= i < |ks| => ks[i] as real)
  }

  lemma {:induction false} SumReals(ks: seq<nat>)
    ensures Sum(Reals(ks)) == Total(ks) as real
  {
    if ks != [] {
      assert Reals(ks)[1..] == Reals(ks[1..]);
      SumReals(ks[1..]);
    }
  }

  function Scale(m: nat, ks: seq<nat>): (r: seq<nat>)
    ensures |r| == |ks| && forall i | 0 <= i < |ks| :: r[i] == m * ks[i]
  {
    seq(|ks|, i requires 0 <= i < |ks| => m * ks[i])
  }

  lemma {:induction false} TotalScale(m: nat, ks: seq<nat>)
    ensures Total(Scale(m, ks)) == m * Total(ks)
  {
    if ks != [] {
      assert Scale(m, ks)[1..] == Scale(m, ks[1..]);
      TotalScale(m, ks[1..]);
      assert m * (ks[0] + Total(ks[1..])) == m * ks[0] + m * Total(ks[1..]);
    }
  }

  lemma {:induction false} TotalMonotone(a: seq<nat>, b: seq<nat>)
    requires |a| == |b| && forall i | 0 <= i < |a| :: a[i] <= b[i]
    ensures Total(a) <= Total(b)
    ensures Total(a) == Total(b) ==> a == b
  {
    if a != [] {
      TotalMonotone(a[1..], b[1..]);
      if Total(a) == Total(b) {
        assert a == [a[0]] + a[1..] && b == [b[0]] + b[1..];
      }
    }
  }

  lemma ScaledCredit(c: nat, m: nat, k: nat, total: nat)
    ensures Times(m * total, k as real) - Times(c, total as real) == ((m * k - c) * total) as real
  {
    TimesOfInteger(m * total, k);
    TimesOfInteger(c, total);
    assert (m * total) * k == (m * k) * total;
    assert (m * k - c) * total == (m * k) * total - c * total;
  }

  lemma NegativeMultiple(d: int, total: nat)
    requires d <= -1
    ensures d * total <= -1 * total
  {
  }

  lemma AboveMinusTotal(d: int, total: nat)
    ensures d * total > -1 * total ==> d >= 0
  {
    if d <= -1 {
      NegativeMultiple(d, total);
    }
  }

  lemma CreditInUnits(ks: seq<nat>, m: nat, n: nat, i: nat)
    requires ValidWeights(Reals(ks)) && i < |ks| && n == m * Total(ks)
    ensures var t := After(Reals(ks), n);
            && t.counts[i] <= m * ks[i]
            && (t.counts[i] == m * ks[i] ==> t.credit[i] == 0.0)
  {
    var w := Reals(ks);
    SumReals(ks);
    CreditInTimes(w, n, i);
    CreditAboveMinusTotal(w, n, i);
    UnitsFromCredit(After(w, n).credit[i], After(w, n).counts[i], m, n, ks[i], Total(ks));
  }

  lemma UnitsFromCredit(credit: real, c: nat, m: nat, n: nat, k: nat, total: nat)
    requires n == m * total
    requires credit == Times(n, k as real) - Times(c, total as real) && credit > -(total as real)
    ensures c <= m * k && (c == m * k ==> credit == 0.0)
  {
    ScaledCredit(c, m, k, total);
    AboveMinusTotal(m * k - c, total);
  }

  /**
    With integer weights k summing to W, after any m * W picks every dataset has been served
    exactly m * k[i] times and the scheduler is back at its initial credits.
   */
  lemma ServesExactShares(ks: seq<nat>, m: nat)
    requires ValidWeights(Reals(ks))
    ensures After(Reals(ks), m * Total(ks)).counts == Scale(m, ks)
    ensures After(Reals(ks), m * Total(ks)).credit == seq(|ks|, i => 0.0)
  {
    var n, shares := m * Total(ks), Scale(m, ks);
    var t := After(Reals(ks), n);
    forall i | 0 <= i < |ks|
      ensures t.counts[i] <= shares[i] && (t.counts[i] == shares[i] ==> t.credit[i] == 0.0)
    {
      CreditInUnits(ks, m, n, i);
    }
    CreditsBalance(Reals(ks), n);
    TotalScale(m, ks);
    SharesServed(t, shares);
  }

  /** Counts that add up to the shares without exceeding any are the shares. */
  lemma SharesServed(t: Turns, shares: seq<nat>)
    requires |t.credit| == |t.counts| == |shares| && Total(t.counts) == Total(shares)
    requires forall i | 0 <= i < |shares| ::
               t.counts[i] <= shares[i] && (t.counts[i] == shares[i] ==> t.credit[i] == 0.0)
    ensures t.counts == shares && t.credit == seq(|shares|, i => 0.0)
  {
    TotalMonotone(t.counts, shares);
  }

  // --------------------------------------------------------------- equal weights

  predicate AllEqual(w: seq<real>, x: real) {
    forall i | 0 <= i < |w| :: w[i] == x
  }

  lemma {:induction false} SumOfEqual(w: seq<real>, x: real)
    requires AllEqual(w, x)
    ensures Sum(w) == Times(|w|, x)
  {
    if w != [] {
      SumOfEqual(w[1..], x);
    }
  }

  lemma {:induction false} TimesOrdered(m: nat, n: nat, x: real)
    requires m <= n && x > 0.0
    ensures Times(m, x) <= Times(n, x) && (n > 0 ==> Times(n, x) > 0.0)
    decreases n
  {
    if m < n {
      TimesOrdered(m, n - 1, x);
    } else if n > 0 {
      TimesOrdered(m - 1, n - 1, x);
    }
  }

  /** The first n datasets were served once, the others not yet. */
  ghost predicate ServedInTurn(w: seq<real>, t: Turns, x: real, n: nat) {
    && |t.credit| == |t.counts| == |w|
    && forall i | 0 <= i < |w| ::
         && t.counts[i] == (if i < n then 1 else 0)
         && t.credit[i] == Times(n, x) - if i < n then Sum(w) else 0.0
  }

  lemma NextInTurn(w: seq<real>, t: Turns, x: real, n: nat, next: nat)
    requires AllEqual(w, x) && n < |w| && ServedInTurn(w, t, x, n) && next == n + 1
    requires 0.0 < Times(next, x) <= Sum(w)
    ensures ServedInTurn(w, Advance(w, t), x, next)
  {
    var charged := Charge(t.credit, w);
    forall i | 0 <= i < |w| ensures charged[i] == Times(next, x) - if i < n then Sum(w) else 0.0 {
    }
    assert IsPick(charged, n);
    PickUnique(charged, n, Pick(charged));
  }

  /** Equal weights serve the datasets in their order: of equal credits the earliest is picked. */
  lemma {:induction false} EqualWeightsTakeTurns(w: seq<real>, x: real, n: nat)
    requires ValidWeights(w) && AllEqual(w, x) && n <= |w|
    ensures ServedInTurn(w, After(w, n), x, n)
  {
    if n > 0 {
      EqualWeightsTakeTurns(w, x, n - 1);
      SumOfEqual(w, x);
      assert w[0] == x > 0.0;
      TimesOrdered(n, n, x);
      TimesOrdered(n, |w|, x);
      NextInTurn(w, After(w, n - 1), x, n - 1, n);
    }
  }

  // ---------------------------------------------------------------- source

  function Flatten<T>(passes: seq<seq<T>>): seq<T> {
    if passes == [] then [] else Flatten(passes[..|passes| - 1]) + passes[|passes| - 1]
  }

  /**
    What one dataset has served: complete passes, each a reordering of the whole dataset, then
    the first `offset` rows of the pass in progress, itself a reordering of the dataset.
   */
  ghost predicate ServedInPasses<T>(original: seq<T>, rows: seq<T>, offset: nat, served: seq<T>,
                                    passes: seq<seq<T>>)
  {
    && multiset(rows) == multiset(original)
    && offset <= |rows|
    && (forall p | p in passes :: multiset(p) == multiset(original))
    && served == Flatten(passes) + rows[..offset]
  }

  lemma PassCompletes<T>(original: seq<T>, rows: seq<T>, served: seq<T>, passes: seq<seq<T>>, next: seq<T>)
    requires ServedInPasses(original, rows, |rows|, served, passes)
    requires multiset(next) == multiset(rows)
    ensures ServedInPasses(original, next, 0, served, passes + [rows])
  {
    assert (passes + [rows])[..|passes + [rows]| - 1] == passes;
    assert rows[..|rows|] == rows;
    assert next[..0] == [];
    assert served == Flatten(passes + [rows]) + next[..0];
  }

  lemma RowServed<T>(original: seq<T>, rows: seq<T>, offset: nat, served: seq<T>, passes: seq<seq<T>>)
    requires ServedInPasses(original, rows, offset, served, passes)
    requires offset < |rows|
    ensures ServedInPasses(original, rows, offset + 1, served + [rows[offset]], passes)
  {
    assert rows[..offset + 1] == rows[..offset] + [rows[offset]];
  }

  ghost predicate Tracked<T>(original: seq<T>, rows: seq<T>, offset: nat, epoch: nat, served: seq<T>,
                             passes: seq<seq<T>>)
  {
    |original| > 0 && |passes| == epoch && ServedInPasses(original, rows, offset, served, passes)
  }

  /** Serving one row of one dataset, starting a new pass when the previous one is exhausted. */
  method Serve<T>(ghost original: seq<T>, rows: seq<T>, offset: nat, epoch: nat, ghost served: seq<T>,
                  ghost passes: seq<seq<T>>, reorder: seq<T> -> seq<T>)
    returns (sample: T, rows': seq<T>, offset': nat, epoch': nat, ghost passes': seq<seq<T>>)
    requires Tracked(original, rows, offset, epoch, served, passes)
    requires multiset(reorder(rows)) == multiset(rows)
    ensures Tracked(original, rows', offset', epoch', served + [sample], passes')
    ensures if offset < |rows| then rows' == rows && epoch' == epoch && offset' == offset + 1
            else rows' == reorder(rows) && epoch' == epoch + 1 && offset' == 1
  {
    assert |multiset(rows)| == |multiset(original)|;
    rows', offset', epoch', passes' := rows, offset, epoch, passes;
    if offset >= |rows| {
      rows', offset', epoch' := reorder(rows), 0, epoch + 1;
      assert |multiset(rows')| == |multiset(rows)|;
      PassCompletes(original, rows, served, passes, rows');
      passes' := passes + [rows];
    }
    sample := rows'[offset'];
    RowServed(original, rows', offset', served, passes');
    offset' := offset' + 1;
  }

  class MixtureSource<T(==)> {
    const weights: seq<real>
    ghost const originals: seq<seq<T>>
    var datasets: seq<seq<T>>
    var current: seq<real>
    var offsets: seq<nat>
    var epochs: seq<nat>
    ghost var picks: nat
    ghost var served: seq<seq<T>>
    ghost var passes: seq<seq<seq<T>>>

    ghost predicate Valid()
      reads this
    {
      && ValidWeights(weights) && AllTracked()
      && current == After(weights, picks).credit
      && (forall i | 0 <= i < |weights| :: |served[i]| == After(weights, picks).counts[i])
    }

    /** Loading rejects a dataset with no valid rows. */
    constructor (weights: seq<real>, datasets: seq<seq<T>>)
      requires ValidWeights(weights) && |weights| == |datasets|
      requires forall i | 0 <= i < |datasets| :: |datasets[i]| > 0
      ensures Valid()
      ensures picks == 0 && originals == datasets && this.weights == weights
    {
      this.weights := weights;
      originals := datasets;
      this.datasets := datasets;
      current := seq(|weights|, i => 0.0);
      offsets := seq(|weights|, i => 0);
      epochs := seq(|weights|, i => 0);
      picks := 0;
      served := seq(|weights|, i => []);
      passes := seq(|weights|, i => []);
    }

    static method ChargeAll(weights: seq<real>, current: seq<real>) returns (charged: seq<real>, total: real)
      requires |current| == |weights|
      ensures charged == Charge(current, weights) && total == Sum(weights)
    {
      charged, total := current, 0.0;
      var i := 0;
      assert weights[0..] == weights;
      while i < |weights|
        invariant 0 <= i <= |weights| == |charged|
        invariant total + Sum(weights[i..]) == Sum(weights)
        invariant forall j | 0 <= j < i :: charged[j] == current[j] + weights[j]
        invariant forall j | i <= j < |weights| :: charged[j] == current[j]
      {
        charged := charged[i := charged[i] + weights[i]];
        total := total + weights[i];
        assert weights[i..][1..] == weights[i + 1..];
        i := i + 1;
      }
    }

    /** The credits and the pick of turn n + 1, from the credits after n turns. */
    static method Turn(weights: seq<real>, current: seq<real>, ghost n: nat) returns (next: seq<real>, k: nat)
      requires |weights| > 0 && current == After(weights, n).credit
      ensures k < |weights| && next == After(weights, n + 1).credit
      ensures After(weights, n + 1).counts == After(weights, n).counts[k := After(weights, n).counts[k] + 1]
    {
      var charged, total := ChargeAll(weights, current);
      k := Largest(charged);
      AfterNext(weights, n, charged, k);
      next := charged[k := charged[k] - total];
    }

    static method Largest(credit: seq<real>) returns (k: nat)
      requires |credit| > 0
      ensures IsPick(credit, k)
    {
      k := 0;
      var i := 1;
      while i < |credit|
        invariant 1 <= i <= |credit|
        invariant k < i
        invariant forall j | 0 <= j < i :: credit[j] <= credit[k]
        invariant forall j | 0 <= j < k :: credit[j] < credit[k]
      {
        if credit[i] > credit[k] {
          k := i;
        }
        i := i + 1;
      }
    }

    /** One turn of the scheduler: charge every dataset its weight, pick the richest, bill it the total. */
    method SelectDataset() returns (k: nat)
      requires ValidWeights(weights) && current == After(weights, picks).credit
      modifies this`current, this`picks
      ensures picks == old(picks) + 1
      ensures current == After(weights, picks).credit
      ensures k < |weights|
      ensures After(weights, picks).counts
           == After(weights, old(picks)).counts[k := After(weights, old(picks)).counts[k] + 1]
    {
      var next;
      next, k := Turn(weights, current, picks);
      current, picks := next, picks + 1;
    }

    /**
      Serve one row. `reorder` stands for the seeded shuffle (the identity when shuffling is off);
      it is applied to a dataset only when a pass over it starts again.
     */
    method NextSample(reorder: seq<T> -> seq<T>) returns (sample: T, ghost k: nat)
      requires Valid()
      requires forall i | 0 <= i < |datasets| :: multiset(reorder(datasets[i])) == multiset(datasets[i])
      modifies this
      ensures Valid()
      ensures picks == old(picks) + 1
      ensures k < |weights|
      ensures served == old(served)[k := old(served)[k] + [sample]]
    {
      var index := SelectDataset();
      k := index;
      sample := ServeFrom(index, reorder);
    }

    ghost predicate AllTracked()
      reads this
    {
      && |weights| == |originals| == |datasets| == |offsets| == |epochs| == |served| == |passes|
      && forall i | 0 <= i < |weights| ::
           Tracked(originals[i], datasets[i], offsets[i], epochs[i], served[i], passes[i])
    }

    /** The row-taking half of a pick: only the chosen dataset moves. */
    method ServeFrom(index: nat, reorder: seq<T> -> seq<T>) returns (sample: T)
      requires AllTracked() && index < |weights|
      requires multiset(reorder(datasets[index])) == multiset(datasets[index])
      modifies this`datasets, this`offsets, this`epochs, this`served, this`passes
      ensures AllTracked() && served == old(served)[index := old(served)[index] + [sample]]
    {
      var rows, offset, epoch;
      ghost var done;
      sample, rows, offset, epoch, done :=
        Serve(originals[index], datasets[index], offsets[index], epochs[index], served[index], passes[index], reorder);
      datasets := datasets[index := rows];
      offsets := offsets[index := offset];
      epochs := epochs[index := epoch];
      served := served[index := served[index] + [sample]];
      passes := passes[index := done];
    }
  }
}
