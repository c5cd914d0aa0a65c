/**
  The store of finalized segments and its two indexes (dressage/proxy/trajectory_store.py:231-348,
  367-420, 438-482).

  The reference is one log of items in writing order; an index agrees with it when every key holds
  exactly the log's items for that key, in order, and no key is empty. Trajectory ids are numbers in
  their sorting order.
 */
module TrajectoryStore {
  import opened Wrappers
  import opened Sequences

  datatype View = LineageView | TimelineView

  /** What finalize stamps on every record of a batch. */
  datatype Marker = Marker(id: string, complete: bool)

  datatype Item = Item(
    uid: nat,
    trajectory: int,
    instance: int,
    segment: int,
    count: int,
    view: View,
    timestamp: int,
    finalization: Option<Marker>)

  type Index = map<int, seq<Item>>

  // ------------------------------------------------------------------ filtering

  function Filter(log: seq<Item>, p: Item -> bool): seq<Item> {
    if log == [] then []
    else Filter(log[..|log| - 1], p) + if p(log[|log| - 1]) then [log[|log| - 1]] else []
  }

  lemma FilterSnoc(log: seq<Item>, x: Item, p: Item -> bool)
    ensures Filter(log + [x], p) == Filter(log, p) + if p(x) then [x] else []
  {
    assert (log + [x])[..|log|] == log;
  }

  lemma {:induction false} FilterMembers(log: seq<Item>, p: Item -> bool)
    ensures forall x :: x in Filter(log, p) <==> x in log && p(x)
  {
    if log != [] {
      FilterMembers(log[..|log| - 1], p);
      assert log == log[..|log| - 1] + [log[|log| - 1]];
    }
  }

  lemma {:induction false} FilterSame(log: seq<Item>, p: Item -> bool, q: Item -> bool)
    requires forall x | x in log :: p(x) == q(x)
    ensures Filter(log, p) == Filter(log, q)
  {
    if log != [] {
      assert forall x | x in log[..|log| - 1] :: x in log;
      FilterSame(log[..|log| - 1], p, q);
      assert log[|log| - 1] in log;
    }
  }

  lemma {:induction false} FilterTwice(log: seq<Item>, p: Item -> bool, q: Item -> bool)
    ensures Filter(Filter(log, p), q) == Filter(log, (x: Item) => p(x) && q(x))
  {
    if log != [] {
      FilterTwice(log[..|log| - 1], p, q);
      if p(log[|log| - 1]) {
        FilterSnoc(Filter(log[..|log| - 1], p), log[|log| - 1], q);
      } else {
        assert Filter(log, p) == Filter(log[..|log| - 1], p);
      }
    }
  }

  ghost function OfInstance(log: seq<Item>, i: int): seq<Item> {
    Filter(log, (x: Item) => x.instance == i)
  }

  ghost function OfTrajectory(log: seq<Item>, t: int): seq<Item> {
    Filter(log, (x: Item) => x.trajectory == t)
  }

  /** The index holds exactly the log's items under each key. */
  ghost predicate ByInstance(m: Index, log: seq<Item>) {
    forall i: int :: Holds(m, i, OfInstance(log, i))
  }

  /** The key holds exactly these items, and is absent when there are none. */
  predicate Holds(m: Index, k: int, items: seq<Item>) {
    (k in m <==> |items| > 0) && (k in m ==> m[k] == items)
  }

  ghost predicate ByTrajectory(m: Index, log: seq<Item>) {
    forall t: int :: Holds(m, t, OfTrajectory(log, t))
  }

  ghost predicate UniqueUids(log: seq<Item>) {
    forall i, j | 0 <= i < |log| && 0 <= j < |log| && log[i].uid == log[j].uid :: i == j
  }

  function Get(m: Index, k: int): seq<Item> {
    if k in m then m[k] else []
  }

  function AddTo(m: Index, k: int, x: Item): Index {
    m[k := Get(m, k) + [x]]
  }

  lemma AddKeepsInstances(m: Index, log: seq<Item>, x: Item)
    requires ByInstance(m, log)
    ensures ByInstance(AddTo(m, x.instance, x), log + [x])
  {
    forall i: int
      ensures OfInstance(log + [x], i) == OfInstance(log, i) + if x.instance == i then [x] else []
    {
      FilterSnoc(log, x, (y: Item) => y.instance == i);
    }
  }

  lemma AddKeepsTrajectories(m: Index, log: seq<Item>, x: Item)
    requires ByTrajectory(m, log)
    ensures ByTrajectory(AddTo(m, x.trajectory, x), log + [x])
  {
    forall t: int
      ensures OfTrajectory(log + [x], t) == OfTrajectory(log, t) + if x.trajectory == t then [x] else []
    {
      FilterSnoc(log, x, (y: Item) => y.trajectory == t);
    }
  }

  // ------------------------------------------------------------ popping a trajectory

  /** What a pop of `t`, limited to one instance if given, takes. */
  predicate Popped(x: Item, t: int, only: Option<int>) {
    x.trajectory == t && (only.None? || x.instance == only.value)
  }

  ghost function Kept(log: seq<Item>, t: int, only: Option<int>): seq<Item> {
    Filter(log, (x: Item) => !Popped(x, t, only))
  }

  ghost function Taken(log: seq<Item>, t: int, only: Option<int>): seq<Item> {
    Filter(log, (x: Item) => Popped(x, t, only))
  }

  lemma KeptByTrajectory(log: seq<Item>, t: int, only: Option<int>, u: int)
    ensures OfTrajectory(Kept(log, t, only), u) ==
            if u == t then Filter(OfTrajectory(log, t), (x: Item) => !Popped(x, t, only)) else OfTrajectory(log, u)
  {
    FilterTwice(log, (x: Item) => !Popped(x, t, only), (x: Item) => x.trajectory == u);
    FilterTwice(log, (x: Item) => x.trajectory == t, (x: Item) => !Popped(x, t, only));
    var both := (x: Item) => !Popped(x, t, only) && x.trajectory == u;
    if u == t {
      FilterSame(log, (x: Item) => ((y: Item) => !Popped(y, t, only))(x) && ((y: Item) => y.trajectory == u)(x), both);
      FilterSame(log, (x: Item) => ((y: Item) => y.trajectory == t)(x) && ((y: Item) => !Popped(y, t, only))(x), both);
    } else {
      FilterSame(log, (x: Item) => ((y: Item) => !Popped(y, t, only))(x) && ((y: Item) => y.trajectory == u)(x),
                 (x: Item) => x.trajectory == u);
    }
  }

  lemma KeptByInstance(log: seq<Item>, t: int, only: Option<int>, i: int)
    ensures OfInstance(Kept(log, t, only), i) == Filter(OfInstance(log, i), (x: Item) => !Popped(x, t, only))
  {
    var p, q := (x: Item) => !Popped(x, t, only), (x: Item) => x.instance == i;
    FilterTwice(log, p, q);
    FilterTwice(log, q, p);
    FilterSame(log, (x: Item) => p(x) && q(x), (x: Item) => q(x) && p(x));
  }

  function UidsOf(items: seq<Item>): set<nat> {
    set x | x in items :: x.uid
  }

  function InstancesOf(items: seq<Item>): set<int> {
    set x | x in items :: x.instance
  }

  function TrajectoriesOf(items: seq<Item>): set<int> {
    set x | x in items :: x.trajectory
  }

  function OnlyIn(xs: seq<Item>, only: Option<int>): seq<Item> {
    Filter(xs, (x: Item) => only.None? || x.instance == only.value)
  }

  function NotIn(xs: seq<Item>, only: Option<int>): seq<Item> {
    Filter(xs, (x: Item) => !(only.None? || x.instance == only.value))
  }

  lemma TakenByTrajectory(log: seq<Item>, t: int, only: Option<int>)
    ensures Taken(log, t, only) == OnlyIn(OfTrajectory(log, t), only)
  {
    var p, q := (x: Item) => x.trajectory == t, (x: Item) => only.None? || x.instance == only.value;
    FilterTwice(log, p, q);
    FilterSame(Filter(log, p), q, (x: Item) => only.None? || x.instance == only.value);
    FilterSame(log, (x: Item) => p(x) && q(x), (x: Item) => Popped(x, t, only));
  }

  lemma RestByTrajectory(log: seq<Item>, t: int, only: Option<int>)
    ensures OfTrajectory(Kept(log, t, only), t) == NotIn(OfTrajectory(log, t), only)
  {
    KeptByTrajectory(log, t, only, t);
    FilterMembers(log, (x: Item) => x.trajectory == t);
    FilterSame(OfTrajectory(log, t), (x: Item) => !Popped(x, t, only),
               (x: Item) => !(only.None? || x.instance == only.value));
  }

  /** Removing by uid removes exactly the popped items. */
  lemma RestByInstance(log: seq<Item>, t: int, only: Option<int>, uids: set<nat>, i: int)
    requires UniqueUids(log) && uids == UidsOf(Taken(log, t, only))
    ensures OfInstance(Kept(log, t, only), i) == WithoutUids(OfInstance(log, i), uids)
  {
    KeptByInstance(log, t, only, i);
    FilterMembers(log, (x: Item) => x.instance == i);
    FilterMembers(log, (x: Item) => Popped(x, t, only));
    forall x | x in OfInstance(log, i) ensures !Popped(x, t, only) == (x.uid !in uids) {
      UidsIdentify(log, Taken(log, t, only), x);
    }
    FilterSame(OfInstance(log, i), (x: Item) => !Popped(x, t, only), (x: Item) => x.uid !in uids);
  }

  lemma UidsIdentify(log: seq<Item>, some: seq<Item>, x: Item)
    requires UniqueUids(log) && x in log && forall y | y in some :: y in log
    ensures x.uid in UidsOf(some) <==> x in some
  {
    if x.uid in UidsOf(some) {
      var y :| y in some && y.uid == x.uid;
      assert y in log;
    }
  }

  lemma {:induction false} NothingFiltered(log: seq<Item>, p: Item -> bool)
    requires forall i | 0 <= i < |log| :: p(log[i])
    ensures Filter(log, p) == log
  {
    if |log| > 0 {
      NothingFiltered(log[..|log| - 1], p);
      assert log == log[..|log| - 1] + [log[|log| - 1]];
    }
  }

  lemma NotTaken(log: seq<Item>, t: int, only: Option<int>, x: Item)
    requires x in log && x !in Taken(log, t, only)
    ensures !Popped(x, t, only)
  {
    FilterMembers(log, (y: Item) => Popped(y, t, only));
  }

  /** An instance that holds no popped item keeps its list. */
  lemma UntouchedInstance(log: seq<Item>, t: int, only: Option<int>, i: int)
    requires forall x | x in Taken(log, t, only) :: x.instance != i
    ensures OfInstance(Kept(log, t, only), i) == OfInstance(log, i)
  {
    KeptByInstance(log, t, only, i);
    FilterMembers(log, (x: Item) => x.instance == i);
    FilterMembers(log, (x: Item) => Popped(x, t, only));
    var mine := OfInstance(log, i);
    forall k | 0 <= k < |mine| ensures !Popped(mine[k], t, only) {
      assert mine[k] in mine;
      NotTaken(log, t, only, mine[k]);
    }
    NothingFiltered(mine, (x: Item) => !Popped(x, t, only));
  }

  // ------------------------------------------------------------- draining instances

  predicate Before(a: Item, b: Item) {
    || a.trajectory < b.trajectory
    || (a.trajectory == b.trajectory && a.segment < b.segment)
    || (a.trajectory == b.trajectory && a.segment == b.segment && a.timestamp <= b.timestamp)
  }

  /** Stable insertion, as `sorted` orders by trajectory, segment and time. */
  function InsertItem(x: Item, xs: seq<Item>): seq<Item> {
    if xs == [] || Before(xs[|xs| - 1], x) then xs + [x] else InsertItem(x, xs[..|xs| - 1]) + [xs[|xs| - 1]]
  }

  function SortItems(xs: seq<Item>): seq<Item> {
    if xs == [] then [] else InsertItem(xs[|xs| - 1], SortItems(xs[..|xs| - 1]))
  }

  lemma {:induction false} InsertMembers(x: Item, xs: seq<Item>)
    ensures |InsertItem(x, xs)| == |xs| + 1
    ensures forall y :: y in InsertItem(x, xs) <==> y == x || y in xs
  {
    if xs != [] && !Before(xs[|xs| - 1], x) {
      InsertMembers(x, xs[..|xs| - 1]);
      assert xs == xs[..|xs| - 1] + [xs[|xs| - 1]];
    }
  }

  lemma {:induction false} SortMembers(xs: seq<Item>)
    ensures |SortItems(xs)| == |xs| && forall y :: y in SortItems(xs) <==> y in xs
  {
    if xs != [] {
      SortMembers(xs[..|xs| - 1]);
      InsertMembers(xs[|xs| - 1], SortItems(xs[..|xs| - 1]));
      assert xs == xs[..|xs| - 1] + [xs[|xs| - 1]];
    }
  }

  lemma {:induction false} InsertUnique(x: Item, xs: seq<Item>)
    requires UniqueUids(xs) && forall y | y in xs :: y.uid != x.uid
    ensures UniqueUids(InsertItem(x, xs))
  {
    if xs != [] && !Before(xs[|xs| - 1], x) {
      var before, last := xs[..|xs| - 1], xs[|xs| - 1];
      assert forall y | y in before :: y in xs;
      InsertUnique(x, before);
      InsertMembers(x, before);
      SnocUnique(InsertItem(x, before), last);
    } else {
      SnocUnique(xs, x);
    }
  }

  lemma SnocUnique(xs: seq<Item>, x: Item)
    requires UniqueUids(xs) && forall y | y in xs :: y.uid != x.uid
    ensures UniqueUids(xs + [x])
  {
    assert forall i | 0 <= i < |xs| :: xs[i] in xs;
  }

  lemma {:induction false} SortUnique(xs: seq<Item>)
    requires UniqueUids(xs)
    ensures UniqueUids(SortItems(xs))
  {
    if xs != [] {
      var before, last := xs[..|xs| - 1], xs[|xs| - 1];
      SortUnique(before);
      SortMembers(before);
      InsertUnique(last, SortItems(before));
    }
  }

  /** Each item comes before all later ones. */
  ghost predicate InSortingOrder(xs: seq<Item>) {
    forall i, j | 0 <= i < j < |xs| :: Before(xs[i], xs[j])
  }

  lemma {:induction false} InsertAddsOne(x: Item, xs: seq<Item>)
    ensures multiset(InsertItem(x, xs)) == multiset(xs) + multiset{x}
  {
    if xs != [] && !Before(xs[|xs| - 1], x) {
      assert xs == xs[..|xs| - 1] + [xs[|xs| - 1]];
      InsertAddsOne(x, xs[..|xs| - 1]);
    }
  }

  lemma OrderSnoc(xs: seq<Item>, last: Item)
    requires InSortingOrder(xs) && forall y | y in xs :: Before(y, last)
    ensures InSortingOrder(xs + [last])
  {
  }

  lemma {:induction false} InsertSorts(x: Item, xs: seq<Item>)
    requires InSortingOrder(xs)
    ensures InSortingOrder(InsertItem(x, xs))
  {
    if xs != [] {
      var before, last := xs[..|xs| - 1], xs[|xs| - 1];
      if Before(last, x) {
        forall y | y in xs ensures Before(y, x) {
          assert y == last || Before(y, last);
        }
        OrderSnoc(xs, x);
      } else {
        InsertSorts(x, before);
        InsertMembers(x, before);
        forall y | y in InsertItem(x, before) ensures Before(y, last) {
          assert y == x || y in before;
        }
        OrderSnoc(InsertItem(x, before), last);
      }
    }
  }

  /** What the order means: by trajectory, then by segment, then by time. */
  lemma OrderIsLexicographic(xs: seq<Item>, i: nat, j: nat)
    requires InSortingOrder(xs) && i < j < |xs|
    ensures xs[i].trajectory <= xs[j].trajectory
    ensures xs[i].trajectory == xs[j].trajectory ==> xs[i].segment <= xs[j].segment
    ensures xs[i].trajectory == xs[j].trajectory && xs[i].segment == xs[j].segment ==>
              xs[i].timestamp <= xs[j].timestamp
  {
    assert Before(xs[i], xs[j]);
  }

  /** Sorting by trajectory, segment and time: ordered, and the same items. */
  lemma {:induction false} SortSorts(xs: seq<Item>)
    ensures InSortingOrder(SortItems(xs)) && multiset(SortItems(xs)) == multiset(xs)
  {
    if xs != [] {
      SortSorts(xs[..|xs| - 1]);
      InsertSorts(xs[|xs| - 1], SortItems(xs[..|xs| - 1]));
      InsertAddsOne(xs[|xs| - 1], SortItems(xs[..|xs| - 1]));
      assert xs == xs[..|xs| - 1] + [xs[|xs| - 1]];
    }
  }

  /** The last item has the greatest trajectory. */
  ghost predicate EndsGreatest(xs: seq<Item>) {
    xs != [] ==> forall y | y in xs :: y.trajectory <= xs[|xs| - 1].trajectory
  }

  lemma InsertEndsGreatest(x: Item, xs: seq<Item>)
    requires EndsGreatest(xs)
    ensures EndsGreatest(InsertItem(x, xs))
  {
    InsertMembers(x, xs);
  }

  lemma {:induction false} SortEndsGreatest(xs: seq<Item>)
    ensures EndsGreatest(SortItems(xs))
  {
    if xs != [] {
      SortEndsGreatest(xs[..|xs| - 1]);
      InsertEndsGreatest(xs[|xs| - 1], SortItems(xs[..|xs| - 1]));
    }
  }

  /** One turn of the inner loop of read_batch: a list that becomes empty is not stored. */
  function DrainItem(m: Index, x: Item): Index {
    var rest := WithoutUid(Get(m, x.trajectory), x.uid);
    if rest != [] then m[x.trajectory := rest] else m
  }

  function DrainItems(m: Index, items: seq<Item>): Index {
    if items == [] then m else DrainItem(DrainItems(m, items[..|items| - 1]), items[|items| - 1])
  }

  /** The inner loop and its `else`, which drops the last item's trajectory. */
  function DrainInstance(m: Index, items: seq<Item>): Index {
    if items == [] then m else DrainItems(m, items) - {items[|items| - 1].trajectory}
  }

  /** The trajectory index after draining instances whose items are read from `byInstance`. */
  function DrainTo(m: Index, byInstance: Index, ids: seq<int>, n: nat): Index
    requires n <= |ids|
  {
    if n == 0 then m else DrainInstance(DrainTo(m, byInstance, ids, n - 1), SortItems(Get(byInstance, ids[n - 1])))
  }

  function DrainAll(m: Index, byInstance: Index, ids: seq<int>): Index {
    DrainTo(m, byInstance, ids, |ids|)
  }

  ghost function Left(log: seq<Item>, gone: set<nat>, t: int): seq<Item> {
    Filter(log, (x: Item) => x.trajectory == t && x.uid !in gone)
  }

  /** A list that was not stored when it became empty: it still holds items of the trajectory. */
  ghost predicate Stale(log: seq<Item>, t: int, items: seq<Item>) {
    items != [] && forall x | x in items :: x in log && x.trajectory == t
  }

  /**
    The trajectory index while `gone` items have been drained and `dropped` trajectories dropped: a
    trajectory that was not dropped holds what is left of it, or something stale when nothing is.
   */
  ghost predicate DrainedAt(m: Index, log: seq<Item>, gone: set<nat>, dropped: set<int>, t: int) {
    if t in dropped then t !in m
    else if Left(log, gone, t) != [] then t in m && m[t] == Left(log, gone, t)
    else (t in m <==> OfTrajectory(log, t) != []) && (t in m ==> Stale(log, t, m[t]))
  }

  ghost predicate Drained(m: Index, log: seq<Item>, gone: set<nat>, dropped: set<int>) {
    forall t: int :: DrainedAt(m, log, gone, dropped, t)
  }

  lemma UndrainedIsDrained(m: Index, log: seq<Item>)
    requires ByTrajectory(m, log)
    ensures Drained(m, log, {}, {})
  {
    forall t: int ensures DrainedAt(m, log, {}, {}, t) {
      NothingGone(log, {}, t);
    }
  }

  lemma NothingGone(log: seq<Item>, gone: set<nat>, t: int)
    requires gone == {}
    ensures Left(log, gone, t) == OfTrajectory(log, t)
  {
    FilterSame(log, (x: Item) => x.trajectory == t && x.uid !in gone, (x: Item) => x.trajectory == t);
  }

  lemma LeftElsewhere(log: seq<Item>, gone: set<nat>, x: Item, t: int)
    requires UniqueUids(log) && x in log && t != x.trajectory
    ensures Left(log, gone + {x.uid}, t) == Left(log, gone, t)
  {
    FilterSame(log, (y: Item) => y.trajectory == t && y.uid !in gone + {x.uid},
               (y: Item) => y.trajectory == t && y.uid !in gone);
  }

  lemma LeftHere(log: seq<Item>, gone: set<nat>, x: Item)
    ensures Left(log, gone + {x.uid}, x.trajectory) == WithoutUid(Left(log, gone, x.trajectory), x.uid)
  {
    var p, q := (y: Item) => y.trajectory == x.trajectory && y.uid !in gone, (y: Item) => y.uid != x.uid;
    FilterTwice(log, p, q);
    FilterSame(Filter(log, p), q, (y: Item) => y.uid != x.uid);
    FilterSame(log, (y: Item) => p(y) && q(y), (y: Item) => y.trajectory == x.trajectory && y.uid !in gone + {x.uid});
  }

  /** The filter of the inner loop, by its own name. */
  function WithoutUid(xs: seq<Item>, uid: nat): seq<Item> {
    Filter(xs, (y: Item) => y.uid != uid)
  }

  lemma StillThere(log: seq<Item>, gone: set<nat>, x: Item)
    requires x in log && x.uid !in gone
    ensures Left(log, gone, x.trajectory) != [] && OfTrajectory(log, x.trajectory) != []
  {
    var t := x.trajectory;
    FilterMembers(log, (y: Item) => y.trajectory == t && y.uid !in gone);
    FilterMembers(log, (y: Item) => y.trajectory == t);
    assert x in Left(log, gone, t) && x in OfTrajectory(log, t);
  }

  lemma DrainItemHere(m: Index, log: seq<Item>, gone: set<nat>, dropped: set<int>, x: Item)
    requires x in log && x.uid !in gone && DrainedAt(m, log, gone, dropped, x.trajectory)
    ensures DrainedAt(DrainItem(m, x), log, gone + {x.uid}, dropped, x.trajectory)
  {
    LeftHere(log, gone, x);
    StillThere(log, gone, x);
    FilterMembers(log, (y: Item) => y.trajectory == x.trajectory && y.uid !in gone);
    LeftMembers(log, gone, x.trajectory);
  }

  lemma LeftMembers(log: seq<Item>, gone: set<nat>, t: int)
    ensures forall y | y in Left(log, gone, t) :: y in log && y.trajectory == t && y.uid !in gone
  {
    FilterMembers(log, (y: Item) => y.trajectory == t && y.uid !in gone);
  }

  lemma DrainItemStep(m: Index, log: seq<Item>, gone: set<nat>, dropped: set<int>, x: Item)
    requires UniqueUids(log) && x in log && x.uid !in gone && Drained(m, log, gone, dropped)
    ensures Drained(DrainItem(m, x), log, gone + {x.uid}, dropped)
  {
    forall t: int ensures DrainedAt(DrainItem(m, x), log, gone + {x.uid}, dropped, t) {
      assert DrainedAt(m, log, gone, dropped, t);
      if t == x.trajectory {
        DrainItemHere(m, log, gone, dropped, x);
      } else {
        LeftElsewhere(log, gone, x, t);
      }
    }
  }

  lemma {:induction false} DrainItemsStep(m: Index, log: seq<Item>, gone: set<nat>, dropped: set<int>, items: seq<Item>)
    requires UniqueUids(log) && UniqueUids(items) && Drained(m, log, gone, dropped)
    requires forall x | x in items :: x in log && x.uid !in gone
    ensures Drained(DrainItems(m, items), log, gone + UidsOf(items), dropped)
  {
    if items == [] {
      assert gone + UidsOf(items) == gone;
    } else {
      var before, last := items[..|items| - 1], items[|items| - 1];
      assert items == before + [last];
      assert last.uid !in UidsOf(before) by {
        forall x | x in before ensures x.uid != last.uid {
          var i :| 0 <= i < |before| && before[i] == x;
          assert items[i] == x;
        }
      }
      DrainItemsStep(m, log, gone, dropped, before);
      DrainItemStep(DrainItems(m, before), log, gone + UidsOf(before), dropped, last);
      assert gone + UidsOf(before) + {last.uid} == gone + UidsOf(items);
    }
  }

  lemma DropStep(m: Index, log: seq<Item>, gone: set<nat>, dropped: set<int>, t: int)
    requires Drained(m, log, gone, dropped)
    ensures Drained(m - {t}, log, gone, dropped + {t})
  {
    forall u: int ensures DrainedAt(m - {t}, log, gone, dropped + {t}, u) {
      assert DrainedAt(m, log, gone, dropped, u);
    }
  }

  // ------------------------------------------------------------- index agreement

  /** The greatest trajectory filed under an instance. */
  ghost predicate Greatest(log: seq<Item>, i: int, t: int) {
    && (exists x | x in log :: x.instance == i && x.trajectory == t)
    && (forall x | x in log && x.instance == i :: x.trajectory <= t)
  }

  ghost function DrainedUids(log: seq<Item>, ids: seq<int>): set<nat> {
    set x | x in log && x.instance in ids :: x.uid
  }

  ghost function DroppedBy(log: seq<Item>, ids: seq<int>): set<int> {
    set x | x in log && x.instance in ids && Greatest(log, x.instance, x.trajectory) :: x.trajectory
  }

  ghost function Undrained(log: seq<Item>, ids: seq<int>): seq<Item> {
    Filter(log, (x: Item) => x.instance !in ids)
  }

  lemma SortedInstance(log: seq<Item>, i: int)
    requires UniqueUids(log) && OfInstance(log, i) != []
    ensures var items := SortItems(OfInstance(log, i));
            && items != [] && UniqueUids(items)
            && (forall x :: x in items <==> x in log && x.instance == i)
            && Greatest(log, i, items[|items| - 1].trajectory)
  {
    var mine := OfInstance(log, i);
    var items := SortItems(mine);
    KeptUnique(log, (x: Item) => x.instance == i);
    FilterMembers(log, (x: Item) => x.instance == i);
    SortMembers(mine);
    SortUnique(mine);
    SortEndsGreatest(mine);
    assert items[|items| - 1] in items;
  }

  lemma GreatestIsUnique(log: seq<Item>, i: int, t: int, u: int)
    requires Greatest(log, i, t) && Greatest(log, i, u)
    ensures t == u
  {
    var x :| x in log && x.instance == i && x.trajectory == t;
    var y :| y in log && y.instance == i && y.trajectory == u;
    assert x.trajectory <= u && y.trajectory <= t;
  }

  lemma DroppedGrows(log: seq<Item>, ids: seq<int>, i: int, t: int)
    requires Greatest(log, i, t)
    ensures DroppedBy(log, ids + [i]) == DroppedBy(log, ids) + {t}
  {
    forall u ensures u in DroppedBy(log, ids + [i]) <==> u in DroppedBy(log, ids) || u == t {
      if u in DroppedBy(log, ids + [i]) {
        var x :| x in log && x.instance in ids + [i] && Greatest(log, x.instance, x.trajectory) && x.trajectory == u;
        if x.instance == i {
          GreatestIsUnique(log, i, t, u);
        }
      }
      if u == t {
        var x :| x in log && x.instance == i && x.trajectory == t;
        assert x.instance in ids + [i];
      }
    }
  }

  lemma UidsGrow(log: seq<Item>, ids: seq<int>, i: int, items: seq<Item>)
    requires forall x :: x in items <==> x in log && x.instance == i
    ensures DrainedUids(log, ids + [i]) == DrainedUids(log, ids) + UidsOf(items)
  {
  }

  lemma NotYetDrained(log: seq<Item>, ids: seq<int>, x: Item)
    requires UniqueUids(log) && x in log && x.instance !in ids
    ensures x.uid !in DrainedUids(log, ids)
  {
  }

  /** The trajectory index after the instances `ids` were drained. */
  ghost predicate DrainedBy(m: Index, log: seq<Item>, ids: seq<int>) {
    Drained(m, log, DrainedUids(log, ids), DroppedBy(log, ids))
  }

  lemma NothingDrainedYet(m: Index, log: seq<Item>, ids: seq<int>)
    requires ByTrajectory(m, log) && ids == []
    ensures DrainedBy(m, log, ids)
  {
    UndrainedIsDrained(m, log);
    assert DrainedUids(log, ids) == {} && DroppedBy(log, ids) == {};
  }

  lemma DrainInstanceStep(m: Index, log: seq<Item>, ids: seq<int>, i: int)
    requires UniqueUids(log) && OfInstance(log, i) != [] && i !in ids
    requires DrainedBy(m, log, ids)
    ensures DrainedBy(DrainInstance(m, SortItems(OfInstance(log, i))), log, ids + [i])
  {
    var items := SortItems(OfInstance(log, i));
    var last := items[|items| - 1].trajectory;
    SortedInstance(log, i);
    forall x | x in items ensures x in log && x.uid !in DrainedUids(log, ids) {
      NotYetDrained(log, ids, x);
    }
    DrainItemsStep(m, log, DrainedUids(log, ids), DroppedBy(log, ids), items);
    UidsGrow(log, ids, i, items);
    DroppedGrows(log, ids, i, last);
    DropStep(DrainItems(m, items), log, DrainedUids(log, ids + [i]), DroppedBy(log, ids), last);
  }

  /** The instances to drain are filed and named once each. */
  ghost predicate Drainable(log: seq<Item>, ids: seq<int>) {
    && (forall n | 0 <= n < |ids| :: OfInstance(log, ids[n]) != [])
    && (forall a, b | 0 <= a < b < |ids| :: ids[a] != ids[b])
  }

  lemma DrainToStep(m: Index, byInstance: Index, log: seq<Item>, ids: seq<int>, n: nat)
    requires ByInstance(byInstance, log) && UniqueUids(log) && Drainable(log, ids) && n < |ids|
    requires DrainedBy(m, log, ids[..n])
    ensures DrainedBy(DrainInstance(m, SortItems(Get(byInstance, ids[n]))), log, ids[..n + 1])
  {
    var i := ids[n];
    assert Holds(byInstance, i, OfInstance(log, i));
    assert i !in ids[..n];
    DrainInstanceStep(m, log, ids[..n], i);
    assert ids[..n] + [i] == ids[..n + 1];
  }

  lemma {:induction false} DrainToSteps(m: Index, byInstance: Index, log: seq<Item>, ids: seq<int>, n: nat)
    requires ByTrajectory(m, log) && ByInstance(byInstance, log) && UniqueUids(log) && Drainable(log, ids) && n <= |ids|
    ensures DrainedBy(DrainTo(m, byInstance, ids, n), log, ids[..n])
  {
    if n == 0 {
      NothingDrainedYet(m, log, ids[..0]);
    } else {
      DrainToSteps(m, byInstance, log, ids, n - 1);
      DrainToStep(DrainTo(m, byInstance, ids, n - 1), byInstance, log, ids, n - 1);
    }
  }

  lemma DrainAllSteps(m: Index, byInstance: Index, log: seq<Item>, ids: seq<int>)
    requires ByTrajectory(m, log) && ByInstance(byInstance, log) && UniqueUids(log) && Drainable(log, ids)
    ensures DrainedBy(DrainAll(m, byInstance, ids), log, ids)
  {
    DrainToSteps(m, byInstance, log, ids, |ids|);
    assert ids[..|ids|] == ids;
  }

  lemma LeftIsUndrained(log: seq<Item>, ids: seq<int>, t: int)
    requires UniqueUids(log)
    ensures Left(log, DrainedUids(log, ids), t) == OfTrajectory(Undrained(log, ids), t)
  {
    var gone := DrainedUids(log, ids);
    var p, q := (x: Item) => x.instance !in ids, (x: Item) => x.trajectory == t;
    forall x | x in log ensures (x.trajectory == t && x.uid !in gone) == (p(x) && q(x)) {
      if x.instance !in ids {
        NotYetDrained(log, ids, x);
      }
    }
    FilterTwice(log, p, q);
    FilterSame(log, (x: Item) => x.trajectory == t && x.uid !in gone, (x: Item) => p(x) && q(x));
  }

  /** Of every trajectory: it is the greatest of some drained instance exactly when nothing of it is left. */
  ghost predicate CleanDrain(log: seq<Item>, ids: seq<int>) {
    forall t: int | OfTrajectory(log, t) != [] ::
      t in DroppedBy(log, ids) <==> OfTrajectory(Undrained(log, ids), t) == []
  }

  lemma AgreementAt(m: Index, log: seq<Item>, ids: seq<int>, t: int)
    requires UniqueUids(log) && DrainedAt(m, log, DrainedUids(log, ids), DroppedBy(log, ids), t)
    ensures Holds(m, t, OfTrajectory(Undrained(log, ids), t))
            <==> (OfTrajectory(log, t) != [] ==>
                   (t in DroppedBy(log, ids) <==> OfTrajectory(Undrained(log, ids), t) == []))
  {
    LeftIsUndrained(log, ids, t);
    UndrainedIsFewer(log, ids, t);
    DroppedIsThere(log, ids, t);
  }

  lemma UndrainedIsFewer(log: seq<Item>, ids: seq<int>, t: int)
    ensures OfTrajectory(log, t) == [] ==> OfTrajectory(Undrained(log, ids), t) == []
  {
    FilterMembers(log, (x: Item) => x.trajectory == t);
    FilterMembers(log, (x: Item) => x.instance !in ids);
    FilterMembers(Undrained(log, ids), (x: Item) => x.trajectory == t);
    HasMember(OfTrajectory(Undrained(log, ids), t));
  }

  lemma DroppedIsThere(log: seq<Item>, ids: seq<int>, t: int)
    ensures t in DroppedBy(log, ids) ==> OfTrajectory(log, t) != []
  {
    FilterMembers(log, (x: Item) => x.trajectory == t);
    if t in DroppedBy(log, ids) {
      var x :| x in log && x.instance in ids && Greatest(log, x.instance, x.trajectory) && x.trajectory == t;
      assert x in OfTrajectory(log, t);
    }
  }

  /** After read_batch the trajectory index agrees with what is left if and only if the drain was clean. */
  lemma ReadBatchAgreesIff(m: Index, byInstance: Index, log: seq<Item>, ids: seq<int>)
    requires ByTrajectory(m, log) && ByInstance(byInstance, log) && UniqueUids(log) && Drainable(log, ids)
    ensures ByTrajectory(DrainAll(m, byInstance, ids), Undrained(log, ids)) <==> CleanDrain(log, ids)
  {
    var m': Index := DrainAll(m, byInstance, ids);
    DrainAllSteps(m, byInstance, log, ids);
    forall t: int
      ensures Holds(m', t, OfTrajectory(Undrained(log, ids), t))
              <==> (OfTrajectory(log, t) != [] ==>
                     (t in DroppedBy(log, ids) <==> OfTrajectory(Undrained(log, ids), t) == []))
    {
      assert DrainedAt(m', log, DrainedUids(log, ids), DroppedBy(log, ids), t);
      AgreementAt(m', log, ids, t);
    }
  }

  /**
    What an unclean drain leads to: a trajectory of which nothing is left, but which was not the greatest of
    any drained instance, still has items in the index, so a later pop hands out drained items again.
   */
  lemma StaleItemsAreHandedOutAgain(m: Index, byInstance: Index, log: seq<Item>, ids: seq<int>, t: int)
    requires ByTrajectory(m, log) && ByInstance(byInstance, log) && UniqueUids(log) && Drainable(log, ids)
    requires OfTrajectory(log, t) != [] && OfTrajectory(Undrained(log, ids), t) == [] && t !in DroppedBy(log, ids)
    ensures var again := OnlyIn(Get(DrainAll(m, byInstance, ids), t), None);
            again != [] && forall x | x in again :: x in log && x.instance in ids
  {
    var m': Index := DrainAll(m, byInstance, ids);
    DrainAllSteps(m, byInstance, log, ids);
    assert DrainedAt(m', log, DrainedUids(log, ids), DroppedBy(log, ids), t);
    LeftIsUndrained(log, ids, t);
    AllTaken(m'[t], None);
    forall x: Item | x in m'[t] ensures x.instance in ids {
      NothingUndrained(log, ids, t, x);
    }
  }

  /** And of a trajectory that was the greatest of a drained instance the index forgets even what is left. */
  lemma DroppedItemsAreLost(m: Index, byInstance: Index, log: seq<Item>, ids: seq<int>, t: int, only: Option<int>)
    requires ByTrajectory(m, log) && ByInstance(byInstance, log) && UniqueUids(log) && Drainable(log, ids)
    requires t in DroppedBy(log, ids)
    ensures OnlyIn(Get(DrainAll(m, byInstance, ids), t), only) == []
  {
    DrainAllSteps(m, byInstance, log, ids);
    assert DrainedAt(DrainAll(m, byInstance, ids), log, DrainedUids(log, ids), DroppedBy(log, ids), t);
  }

  lemma AllTaken(xs: seq<Item>, only: Option<int>)
    requires only == None
    ensures OnlyIn(xs, only) == xs
  {
    NothingFiltered(xs, (x: Item) => only.None? || x.instance == only.value);
  }

  lemma NothingUndrained(log: seq<Item>, ids: seq<int>, t: int, x: Item)
    requires OfTrajectory(Undrained(log, ids), t) == [] && x in log && x.trajectory == t
    ensures x.instance in ids
  {
    FilterMembers(log, (y: Item) => y.instance !in ids);
    FilterMembers(Undrained(log, ids), (y: Item) => y.trajectory == t);
    assert x.instance !in ids ==> x in OfTrajectory(Undrained(log, ids), t);
  }

  /** Each drained instance holds a single trajectory that lives nowhere else. */
  ghost predicate OneToOne(log: seq<Item>, ids: seq<int>) {
    forall x, y | x in log && y in log && x.instance in ids ::
      (x.instance == y.instance <==> x.trajectory == y.trajectory)
  }

  lemma OneToOneIsClean(log: seq<Item>, ids: seq<int>)
    requires OneToOne(log, ids)
    ensures CleanDrain(log, ids)
  {
    forall t: int | OfTrajectory(log, t) != []
      ensures t in DroppedBy(log, ids) <==> OfTrajectory(Undrained(log, ids), t) == []
    {
      FilterMembers(log, (x: Item) => x.trajectory == t);
      FilterMembers(log, (x: Item) => x.instance !in ids);
      FilterMembers(Undrained(log, ids), (x: Item) => x.trajectory == t);
      var x := OfTrajectory(log, t)[0];
      assert x in OfTrajectory(log, t);
      if x.instance in ids {
        assert Greatest(log, x.instance, t);
        assert t in DroppedBy(log, ids);
        NothingLeft(log, ids, t);
      } else {
        assert x in OfTrajectory(Undrained(log, ids), t);
        assert forall y | y in log && y.trajectory == t :: y.instance !in ids;
      }
    }
  }

  /** Draining an instance that alone holds two trajectories leaves a stale item behind. */
  lemma TwoTrajectoriesDisagree(m: Index, byInstance: Index, log: seq<Item>, i: int, x: Item, y: Item)
    requires ByTrajectory(m, log) && ByInstance(byInstance, log) && UniqueUids(log)
    requires x in log && y in log && x.instance == y.instance == i && x.trajectory < y.trajectory
    requires forall z | z in log && z.trajectory == x.trajectory :: z.instance == i
    ensures !ByTrajectory(DrainAll(m, byInstance, [i]), Undrained(log, [i]))
  {
    var t := x.trajectory;
    FilterMembers(log, (z: Item) => z.instance == i);
    assert x in OfInstance(log, i);
    ReadBatchAgreesIff(m, byInstance, log, [i]);
    FilterMembers(log, (z: Item) => z.trajectory == t);
    assert x in OfTrajectory(log, t);
    NothingLeft(log, [i], t);
    assert t !in DroppedBy(log, [i]);
  }

  lemma NothingLeft(log: seq<Item>, ids: seq<int>, t: int)
    requires forall z | z in log && z.trajectory == t :: z.instance in ids
    ensures OfTrajectory(Undrained(log, ids), t) == []
  {
    FilterMembers(log, (x: Item) => x.instance !in ids);
    FilterMembers(Undrained(log, ids), (x: Item) => x.trajectory == t);
    HasMember(OfTrajectory(Undrained(log, ids), t));
  }

  lemma HasMember(xs: seq<Item>)
    ensures xs == [] || exists z :: z in xs
  {
    if xs != [] {
      assert xs[0] in xs;
    }
  }

  // ------------------------------------------------------------- finalized batches

  function Range(n: nat): (r: set<int>)
    ensures |r| == n && forall k :: k in r <==> 0 <= k < n
  {
    if n == 0 then {} else Range(n - 1) + {n - 1}
  }

  function CountsOf(xs: seq<Item>): set<int> {
    set x | x in xs :: x.count
  }

  function SegmentsOf(xs: seq<Item>): set<int> {
    set x | x in xs :: x.segment
  }

  function MarksOf(items: seq<Item>): set<Option<Marker>> {
    set x | x in items :: x.finalization
  }

  /** The segments of one view are numbered 0..N-1, each once, and all say so. */
  predicate CompleteView(xs: seq<Item>) {
    xs == [] ||
    (CountsOf(xs) == {|xs|} && SegmentsOf(xs) == Range(|xs|))
  }

  predicate Marked(items: seq<Item>) {
    exists x | x in items :: x.finalization.Some?
  }

  /** _validate_finalized_batch does not raise. */
  predicate ValidBatch(items: seq<Item>) {
    items == [] || !Marked(items) ||
    (&& |MarksOf(items)| == 1
     && (forall x | x in items ::
           x.finalization.Some? && x.finalization.value.id != "" && x.finalization.value.complete)
     && |TrajectoriesOf(items)| == 1
     && |InstancesOf(items)| == 1
     && CompleteView(Filter(items, (x: Item) => x.view == LineageView))
     && CompleteView(Filter(items, (x: Item) => x.view == TimelineView)))
  }

  lemma {:induction false} FilterConcat(a: seq<Item>, b: seq<Item>, p: Item -> bool)
    ensures Filter(a + b, p) == Filter(a, p) + Filter(b, p)
  {
    if b == [] {
      assert a + b == a;
    } else {
      assert (a + b)[..|a + b| - 1] == a + b[..|b| - 1];
      FilterConcat(a, b[..|b| - 1], p);
    }
  }

  /** The records of one view as finalize numbers them. */
  ghost predicate NumberedView(xs: seq<Item>, view: View) {
    forall k | 0 <= k < |xs| :: xs[k].segment == k && xs[k].count == |xs| && xs[k].view == view
  }

  lemma NumberedIsComplete(xs: seq<Item>, view: View)
    requires NumberedView(xs, view)
    ensures CompleteView(xs)
  {
    if xs != [] {
      forall k ensures k in SegmentsOf(xs) <==> k in Range(|xs|) {
        if k in Range(|xs|) {
          assert xs[k] in xs;
        }
      }
      assert xs[0] in xs;
      assert CountsOf(xs) == {|xs|};
    }
  }

  lemma NumberedSelects(xs: seq<Item>, view: View, wanted: View)
    requires NumberedView(xs, view)
    ensures Filter(xs, (x: Item) => x.view == wanted) == if view == wanted then xs else []
  {
    FilterMembers(xs, (x: Item) => x.view == wanted);
    if view == wanted {
      NothingFiltered(xs, (x: Item) => x.view == wanted);
    } else {
      HasMember(Filter(xs, (x: Item) => x.view == wanted));
    }
  }

  lemma SingletonCount<T>(s: set<T>, x: T)
    requires s == {x}
    ensures |s| == 1
  {
  }

  lemma BatchView(lineage: seq<Item>, timeline: seq<Item>, wanted: View)
    requires NumberedView(lineage, LineageView) && NumberedView(timeline, TimelineView)
    ensures Filter(lineage + timeline, (x: Item) => x.view == wanted) ==
              if wanted == LineageView then lineage else timeline
  {
    FilterConcat(lineage, timeline, (x: Item) => x.view == wanted);
    NumberedSelects(lineage, LineageView, wanted);
    NumberedSelects(timeline, TimelineView, wanted);
    assert lineage + [] == lineage && [] + timeline == timeline;
  }

  /** Numbered views of one trajectory, one instance and one finalization make a valid batch. */
  lemma NumberedBatchIsValid(lineage: seq<Item>, timeline: seq<Item>, t: int, i: int, marker: Marker)
    requires NumberedView(lineage, LineageView) && NumberedView(timeline, TimelineView)
    requires marker.id != "" && marker.complete
    requires forall x | x in lineage + timeline ::
               x.trajectory == t && x.instance == i && x.finalization == Some(marker)
    ensures ValidBatch(lineage + timeline)
  {
    var items := lineage + timeline;
    if items != [] {
      assert items[0] in items;
      SingletonCount(MarksOf(items), Some(marker));
      SingletonCount(TrajectoriesOf(items), t);
      SingletonCount(InstancesOf(items), i);
      BatchView(lineage, timeline, LineageView);
      BatchView(lineage, timeline, TimelineView);
      NumberedIsComplete(lineage, LineageView);
      NumberedIsComplete(timeline, TimelineView);
    }
  }

  ghost predicate DistinctSegments(xs: seq<Item>) {
    forall i, j | 0 <= i < j < |xs| :: xs[i].segment != xs[j].segment
  }

  lemma {:induction false} DistinctIffCounted(xs: seq<Item>)
    ensures |SegmentsOf(xs)| <= |xs| && (|SegmentsOf(xs)| == |xs| <==> DistinctSegments(xs))
  {
    if xs != [] {
      var before, last := xs[..|xs| - 1], xs[|xs| - 1];
      DistinctIffCounted(before);
      assert xs == before + [last];
      assert SegmentsOf(xs) == SegmentsOf(before) + {last.segment};
      if last.segment in SegmentsOf(before) {
        assert SegmentsOf(xs) == SegmentsOf(before);
        var x :| x in before && x.segment == last.segment;
        var i :| 0 <= i < |before| && before[i] == x;
        assert xs[i].segment == xs[|xs| - 1].segment;
      } else {
        forall i | 0 <= i < |before| ensures xs[i].segment != last.segment {
          assert before[i] in before;
        }
      }
    }
  }

  lemma SubsetOfSameSize(a: set<int>, b: set<int>)
    requires a <= b && |a| == |b|
    ensures a == b
  {
    assert b == a + (b - a);
    assert |b - a| == 0;
  }

  /** Each of the numbers 0 .. N-1 is the segment of exactly one of the N records, and each record says N. */
  ghost predicate Numbering(xs: seq<Item>) {
    DistinctSegments(xs) && forall x | x in xs :: 0 <= x.segment < |xs| && x.count == |xs|
  }

  lemma CountsAgree(xs: seq<Item>, n: int)
    requires xs != []
    ensures CountsOf(xs) == {n} <==> forall x | x in xs :: x.count == n
  {
    assert xs[0] in xs;
    assert forall x | x in xs :: x.count in CountsOf(xs);
  }

  lemma SegmentsAgree(xs: seq<Item>)
    ensures SegmentsOf(xs) == Range(|xs|) <==>
            DistinctSegments(xs) && forall x | x in xs :: 0 <= x.segment < |xs|
  {
    DistinctIffCounted(xs);
    assert forall x | x in xs :: x.segment in SegmentsOf(xs);
    if DistinctSegments(xs) && forall x | x in xs :: 0 <= x.segment < |xs| {
      assert SegmentsOf(xs) <= Range(|xs|);
      SubsetOfSameSize(SegmentsOf(xs), Range(|xs|));
    }
  }

  lemma CompleteIffNumbering(xs: seq<Item>)
    ensures CompleteView(xs) <==> Numbering(xs)
  {
    if xs != [] {
      CountsAgree(xs, |xs|);
      SegmentsAgree(xs);
    }
  }

  ghost predicate OneTrajectory(items: seq<Item>) {
    forall x, y | x in items && y in items :: x.trajectory == y.trajectory
  }

  ghost predicate OneInstance(items: seq<Item>) {
    forall x, y | x in items && y in items :: x.instance == y.instance
  }

  /** All records carry one mark, of a completed finalization. */
  ghost predicate OneMark(items: seq<Item>) {
    && (forall x, y | x in items && y in items :: x.finalization == y.finalization)
    && forall x | x in items ::
         x.finalization.Some? && x.finalization.value.id != "" && x.finalization.value.complete
  }

  lemma OneValueIff<T>(values: set<T>)
    ensures |values| == 1 <==> values != {} && forall a, b | a in values && b in values :: a == b
  {
    if |values| == 1 {
      var a :| a in values;
      assert |values - {a}| == 0;
      assert forall b | b in values && b != a :: b in values - {a};
    } else if values != {} {
      var a :| a in values;
      assert |values - {a}| > 0;
      var b :| b in values - {a};
    }
  }

  lemma OneTrajectoryIff(items: seq<Item>)
    requires items != []
    ensures |TrajectoriesOf(items)| == 1 <==> OneTrajectory(items)
  {
    assert items[0] in items;
    assert forall y | y in items :: y.trajectory in TrajectoriesOf(items);
    OneValueIff(TrajectoriesOf(items));
  }

  lemma OneInstanceIff(items: seq<Item>)
    requires items != []
    ensures |InstancesOf(items)| == 1 <==> OneInstance(items)
  {
    assert items[0] in items;
    assert forall y | y in items :: y.instance in InstancesOf(items);
    OneValueIff(InstancesOf(items));
  }

  lemma OneMarkIff(items: seq<Item>)
    requires items != []
    ensures |MarksOf(items)| == 1 <==> forall x, y | x in items && y in items :: x.finalization == y.finalization
  {
    assert items[0] in items;
    assert forall y | y in items :: y.finalization in MarksOf(items);
    OneValueIff(MarksOf(items));
  }

  /**
    A batch with a finalization mark is valid if and only if it is one finalization's, numbered whole in
    both views.
   */
  lemma ValidBatchIff(items: seq<Item>)
    requires Marked(items)
    ensures ValidBatch(items) <==>
            && OneMark(items) && OneTrajectory(items) && OneInstance(items)
            && Numbering(Filter(items, (x: Item) => x.view == LineageView))
            && Numbering(Filter(items, (x: Item) => x.view == TimelineView))
  {
    OneMarkIff(items);
    OneTrajectoryIff(items);
    OneInstanceIff(items);
    CompleteIffNumbering(Filter(items, (x: Item) => x.view == LineageView));
    CompleteIffNumbering(Filter(items, (x: Item) => x.view == TimelineView));
  }

  // ------------------------------------------------------------------- the store

  ghost predicate SnapshotOf<T(!new)>(saved: map<int, Option<T>>, m: map<int, T>) {
    forall k | k in saved :: saved[k] == if k in m then Some(m[k]) else None
  }

  function Snapshot<T(!new)>(m: map<int, T>, keys: set<int>): (r: map<int, Option<T>>)
    ensures r.Keys == keys && SnapshotOf(r, m)
  {
    map k | k in keys :: if k in m then Some(m[k]) else None
  }

  ghost predicate SameOutside<T(!new)>(a: map<int, T>, b: map<int, T>, keys: set<int>) {
    && (forall k | k in a && k !in keys :: k in b && a[k] == b[k])
    && (forall k | k in b && k !in keys :: k in a)
  }

  /** Puts every snapshotted key back, which undoes any change confined to those keys. */
  method Restore<T(==,!new)>(current: map<int, T>, previous: map<int, Option<T>>, ghost before: map<int, T>)
    returns (m: map<int, T>)
    requires SnapshotOf(previous, before)
    requires SameOutside(current, before, previous.Keys)
    ensures m == before
  {
    m := current;
    var rest := previous.Keys;
    while rest != {}
      invariant rest <= previous.Keys
      invariant forall k | k in m && k !in rest :: k in before && m[k] == before[k]
      invariant forall k | k in before && k !in rest :: k in m
      decreases |rest|
    {
      Inhabited(rest);
      var k :| k in rest;
      rest := rest - {k};
      match previous[k]
      case None => m := m - {k};
      case Some(v) => m := m[k := v];
    }
    assert forall k :: k !in rest;
    assert forall k | k in m :: k in before && m[k] == before[k];
    assert forall k | k in before :: k in m;
    assert m.Keys == before.Keys;
  }

  /** Filing a batch item by item. */
  function FileInstances(m: Index, items: seq<Item>): Index {
    if items == [] then m
    else AddTo(FileInstances(m, items[..|items| - 1]), items[|items| - 1].instance, items[|items| - 1])
  }

  function FileTrajectories(m: Index, items: seq<Item>): Index {
    if items == [] then m
    else AddTo(FileTrajectories(m, items[..|items| - 1]), items[|items| - 1].trajectory, items[|items| - 1])
  }

  lemma {:induction false} FiledInstances(m: Index, log: seq<Item>, items: seq<Item>)
    requires ByInstance(m, log)
    ensures ByInstance(FileInstances(m, items), log + items)
  {
    if items == [] {
      assert log + items == log;
    } else {
      var before, last := items[..|items| - 1], items[|items| - 1];
      FiledInstances(m, log, before);
      AddKeepsInstances(FileInstances(m, before), log + before, last);
      assert log + before + [last] == log + items;
    }
  }

  lemma {:induction false} FiledTrajectories(m: Index, log: seq<Item>, items: seq<Item>)
    requires ByTrajectory(m, log)
    ensures ByTrajectory(FileTrajectories(m, items), log + items)
  {
    if items == [] {
      assert log + items == log;
    } else {
      var before, last := items[..|items| - 1], items[|items| - 1];
      FiledTrajectories(m, log, before);
      AddKeepsTrajectories(FileTrajectories(m, before), log + before, last);
      assert log + before + [last] == log + items;
    }
  }

  lemma {:induction false} FiledKeys(m: Index, items: seq<Item>)
    ensures FileInstances(m, items).Keys == m.Keys + InstancesOf(items)
  {
    if items == [] {
      assert m.Keys + InstancesOf(items) == m.Keys;
    } else {
      var before, last := items[..|items| - 1], items[|items| - 1];
      FiledKeys(m, before);
      assert items == before + [last];
      assert InstancesOf(items) == InstancesOf(before) + {last.instance};
    }
  }

  /** However far a batch got, it touched only its own keys. */
  lemma {:induction false} InstancesOutside(m: Index, items: seq<Item>, a: nat, keys: set<int>)
    requires a <= |items| && forall x | x in items :: x.instance in keys
    ensures SameOutside(FileInstances(m, items[..a]), m, keys)
  {
    if a > 0 {
      InstancesOutside(m, items, a - 1, keys);
      assert items[..a][..a - 1] == items[..a - 1];
      assert items[a - 1] in items;
    }
  }

  lemma {:induction false} TrajectoriesOutside(m: Index, items: seq<Item>, b: nat, keys: set<int>)
    requires b <= |items| && forall x | x in items :: x.trajectory in keys
    ensures SameOutside(FileTrajectories(m, items[..b]), m, keys)
  {
    if b > 0 {
      TrajectoriesOutside(m, items, b - 1, keys);
      assert items[..b][..b - 1] == items[..b - 1];
      assert items[b - 1] in items;
    }
  }

  lemma {:induction false} WithoutSameKeys<T, U>(m: map<int, T>, m': map<int, U>, ids: seq<int>, n: nat)
    requires m.Keys == m'.Keys && n <= |ids|
    ensures WithoutTo(m, ids, n).Keys == WithoutTo(m', ids, n).Keys
  {
    if n > 0 {
      WithoutSameKeys(m, m', ids, n - 1);
    }
  }

  /** The map without the first `n` of the given keys. */
  function WithoutTo<T>(m: map<int, T>, ids: seq<int>, n: nat): map<int, T>
    requires n <= |ids|
  {
    if n == 0 then m else WithoutTo(m, ids, n - 1) - {ids[n - 1]}
  }

  lemma {:induction false} WithoutMembers<T>(m: map<int, T>, ids: seq<int>, n: nat, k: int)
    requires n <= |ids|
    ensures k in WithoutTo(m, ids, n) <==> k in m && k !in ids[..n]
    ensures k in WithoutTo(m, ids, n) ==> WithoutTo(m, ids, n)[k] == m[k]
  {
    if n > 0 {
      WithoutMembers(m, ids, n - 1, k);
      assert ids[..n] == ids[..n - 1] + [ids[n - 1]];
    }
  }

  /** What read_batch hands out for the first `n` instances. */
  function SortedGroups(m: Index, ids: seq<int>, n: nat): (r: seq<seq<Item>>)
    requires n <= |ids|
    ensures |r| == n && forall k | 0 <= k < n :: r[k] == SortItems(Get(m, ids[k]))
  {
    if n == 0 then [] else SortedGroups(m, ids, n - 1) + [SortItems(Get(m, ids[n - 1]))]
  }

  function WithoutUids(xs: seq<Item>, uids: set<nat>): seq<Item> {
    Filter(xs, (x: Item) => x.uid !in uids)
  }

  function PutOrDrop(m: Index, k: int, items: seq<Item>): Index {
    if |items| > 0 then m[k := items] else m - {k}
  }

  /** Key `i` after the uids were removed from the lists of `keys`. */
  predicate PurgedAt(m: Index, m0: Index, keys: set<int>, uids: set<nat>, i: int) {
    if i in keys then Holds(m, i, WithoutUids(Get(m0, i), uids))
    else (i in m <==> i in m0) && (i in m ==> m[i] == m0[i])
  }

  ghost predicate Purged(m: Index, m0: Index, keys: set<int>, uids: set<nat>) {
    forall i: int :: PurgedAt(m, m0, keys, uids, i)
  }

  lemma PurgeStep(m: Index, m0: Index, keys: set<int>, uids: set<nat>, i: int)
    requires i !in keys && Purged(m, m0, keys, uids)
    ensures Purged(PutOrDrop(m, i, WithoutUids(Get(m, i), uids)), m0, keys + {i}, uids)
  {
    var m' := PutOrDrop(m, i, WithoutUids(Get(m, i), uids));
    forall j: int ensures PurgedAt(m', m0, keys + {i}, uids, j) {
      assert PurgedAt(m, m0, keys, uids, j);
    }
  }

  lemma PurgedInstances(m: Index, m0: Index, log: seq<Item>, t: int, only: Option<int>, keys: set<int>, uids: set<nat>)
    requires ByInstance(m0, log) && UniqueUids(log)
    requires keys == InstancesOf(Taken(log, t, only)) && uids == UidsOf(Taken(log, t, only))
    requires Purged(m, m0, keys, uids)
    ensures ByInstance(m, Kept(log, t, only))
  {
    forall i: int ensures Holds(m, i, OfInstance(Kept(log, t, only), i)) {
      assert PurgedAt(m, m0, keys, uids, i) && Holds(m0, i, OfInstance(log, i));
      if i in keys {
        RestByInstance(log, t, only, uids, i);
      } else {
        UntouchedInstance(log, t, only, i);
      }
    }
  }

  /** The stamps of `keys` were renewed, or dropped with the instance; all others stayed. */
  ghost predicate Restamped(stamps: map<int, int>, before: map<int, int>, m: Index, keys: set<int>, now: int) {
    && SameOutside(stamps, before, keys)
    && forall i | i in keys :: (i in stamps <==> i in m) && (i in stamps ==> stamps[i] == now)
  }

  lemma StampedKeys(stamps: map<int, int>, before: map<int, int>, keys: set<int>, now: int)
    requires SameOutside(stamps, before, keys) && forall i | i in keys :: i in stamps && stamps[i] == now
    ensures stamps.Keys == before.Keys + keys
  {
    forall i ensures i in stamps <==> i in before || i in keys {
    }
  }

  lemma PurgedKeys(m: Index, m0: Index, keys: set<int>, uids: set<nat>, stamps: map<int, int>, before: map<int, int>,
                   now: int)
    requires Purged(m, m0, keys, uids) && Restamped(stamps, before, m, keys, now) && before.Keys == m0.Keys
    ensures stamps.Keys == m.Keys
  {
    forall i: int ensures i in stamps <==> i in m {
      assert PurgedAt(m, m0, keys, uids, i);
    }
  }

  class Store {
    var byInstance: Index
    var byTrajectory: Index
    var stamps: map<int, int>
    ghost var log: seq<Item>

    ghost predicate Valid()
      reads this
    {
      ByInstance(byInstance, log) && ByTrajectory(byTrajectory, log) && UniqueUids(log) && Stamped()
    }

    /** Exactly the instances that hold items have a time stamp. */
    predicate Stamped()
      reads this
    {
      stamps.Keys == byInstance.Keys
    }

    constructor ()
      ensures Valid() && log == []
    {
      byInstance, byTrajectory, stamps, log := map[], map[], map[], [];
    }

    /**
      The publishing loop of _write_items; `failAt` makes the update after that many raise. However far
      it gets, each index holds the first items of the batch on top of what it held.
     */
    method AddItems(items: seq<Item>, failAt: Option<nat>) returns (failed: bool, ghost a: nat, ghost b: nat)
      modifies this`byInstance, this`byTrajectory
      ensures failed <==> failAt.Some? && failAt.value < 2 * |items|
      ensures a <= |items| && b <= |items| && (!failed ==> a == b == |items|)
      ensures byInstance == FileInstances(old(byInstance), items[..a])
      ensures byTrajectory == FileTrajectories(old(byTrajectory), items[..b])
    {
      a, b := 0, 0;
      for n := 0 to |items|
        invariant failAt.Some? ==> 2 * n <= failAt.value
        invariant a == b == n
        invariant byInstance == FileInstances(old(byInstance), items[..n])
        invariant byTrajectory == FileTrajectories(old(byTrajectory), items[..n])
      {
        var x := items[n];
        assert items[..n + 1][..n] == items[..n];
        if failAt == Some(2 * n) {
          return true, a, b;
        }
        byInstance, a := AddTo(byInstance, x.instance, x), n + 1;
        if failAt == Some(2 * n + 1) {
          return true, a, b;
        }
        byTrajectory, b := AddTo(byTrajectory, x.trajectory, x), n + 1;
      }
      return false, a, b;
    }

    method RollBack(previousInstances: map<int, Option<seq<Item>>>, previousTrajectories: map<int, Option<seq<Item>>>,
                    previousStamps: map<int, Option<int>>,
                    ghost instances: Index, ghost trajectories: Index, ghost times: map<int, int>)
      requires SnapshotOf(previousInstances, instances) && SameOutside(byInstance, instances, previousInstances.Keys)
      requires SnapshotOf(previousTrajectories, trajectories)
      requires SameOutside(byTrajectory, trajectories, previousTrajectories.Keys)
      requires SnapshotOf(previousStamps, times) && SameOutside(stamps, times, previousStamps.Keys)
      modifies this`byInstance, this`byTrajectory, this`stamps
      ensures byInstance == instances && byTrajectory == trajectories && stamps == times
    {
      byInstance := Restore(byInstance, previousInstances, instances);
      byTrajectory := Restore(byTrajectory, previousTrajectories, trajectories);
      stamps := Restore(stamps, previousStamps, times);
    }

    /** The time-stamp loop; `budget` makes the update after that many raise. */
    method StampAll(keys: set<int>, now: int, budget: Option<nat>) returns (failed: bool)
      modifies this`stamps
      ensures failed <==> budget.Some? && budget.value < |keys|
      ensures SameOutside(stamps, old(stamps), keys)
      ensures !failed ==> forall i | i in keys :: i in stamps && stamps[i] == now
    {
      var rest, n: nat := keys, 0;
      while rest != {}
        invariant rest <= keys && n == |keys| - |rest| && (budget.Some? ==> n <= budget.value)
        invariant SameOutside(stamps, old(stamps), keys)
        invariant forall i | i in keys && i !in rest :: i in stamps && stamps[i] == now
        decreases |rest|
      {
        if budget == Some(n) {
          return true;
        }
        Inhabited(rest);
        var i :| i in rest;
        stamps := stamps[i := now];
        rest, n := rest - {i}, n + 1;
      }
      return false;
    }

    /** How many updates publishing a batch makes. */
    static function Updates(items: seq<Item>): nat {
      2 * |items| + |InstancesOf(items)|
    }

    /** The index updates of _write_items, up to the one that raises. */
    method PublishIndexes(items: seq<Item>, failAt: Option<nat>) returns (failed: bool)
      modifies this`byInstance, this`byTrajectory
      ensures failed <==> failAt.Some? && failAt.value < 2 * |items|
      ensures SameOutside(byInstance, old(byInstance), InstancesOf(items))
      ensures SameOutside(byTrajectory, old(byTrajectory), TrajectoriesOf(items))
      ensures !failed ==> byInstance == FileInstances(old(byInstance), items)
      ensures !failed ==> byTrajectory == FileTrajectories(old(byTrajectory), items)
    {
      ghost var a, b;
      failed, a, b := AddItems(items, failAt);
      InstancesOutside(old(byInstance), items, a, InstancesOf(items));
      TrajectoriesOutside(old(byTrajectory), items, b, TrajectoriesOf(items));
      assert items[..|items|] == items;
    }

    /** All updates of _write_items, up to the one that raises; only the batch's own keys are touched. */
    method Publish(items: seq<Item>, now: int, failAt: Option<nat>) returns (failed: bool)
      modifies this`byInstance, this`byTrajectory, this`stamps
      ensures failed <==> failAt.Some? && failAt.value < Updates(items)
      ensures SameOutside(byInstance, old(byInstance), InstancesOf(items))
      ensures SameOutside(byTrajectory, old(byTrajectory), TrajectoriesOf(items))
      ensures SameOutside(stamps, old(stamps), InstancesOf(items))
      ensures !failed ==> byInstance == FileInstances(old(byInstance), items)
      ensures !failed ==> byTrajectory == FileTrajectories(old(byTrajectory), items)
      ensures !failed ==> forall i | i in InstancesOf(items) :: i in stamps && stamps[i] == now
    {
      failed := PublishIndexes(items, failAt);
      if !failed {
        failed := StampAll(InstancesOf(items), now, if failAt.Some? then Some(failAt.value - 2 * |items|) else None);
      }
    }

    /** The updates of _write_items, undone if one of them raises. */
    method AddOrRollBack(items: seq<Item>, now: int, failAt: Option<nat>) returns (ok: bool)
      modifies this`byInstance, this`byTrajectory, this`stamps
      ensures ok == !(failAt.Some? && failAt.value < Updates(items))
      ensures ok ==> byInstance == FileInstances(old(byInstance), items)
      ensures ok ==> byTrajectory == FileTrajectories(old(byTrajectory), items)
      ensures ok ==> forall i | i in InstancesOf(items) :: i in stamps && stamps[i] == now
      ensures SameOutside(stamps, old(stamps), InstancesOf(items))
      ensures !ok ==> byInstance == old(byInstance) && byTrajectory == old(byTrajectory) && stamps == old(stamps)
    {
      var previousInstances := Snapshot(byInstance, InstancesOf(items));
      var previousTrajectories := Snapshot(byTrajectory, TrajectoriesOf(items));
      var previousStamps := Snapshot(stamps, InstancesOf(items));
      var failed := Publish(items, now, failAt);
      if failed {
        RollBack(previousInstances, previousTrajectories, previousStamps, old(byInstance), old(byTrajectory),
                 old(stamps));
      }
      return !failed;
    }

    /** _write_items: the whole batch or nothing, wherever the updates raise. */
    method WriteItems(items: seq<Item>, now: int, failAt: Option<nat>) returns (ok: bool)
      requires Valid() && UniqueUids(log + items)
      modifies this
      ensures Valid() && ok == !(failAt.Some? && failAt.value < Updates(items))
      ensures ok ==> log == old(log) + items
      ensures ok ==> forall i | i in InstancesOf(items) :: i in stamps && stamps[i] == now
      ensures SameOutside(stamps, old(stamps), InstancesOf(items))
      ensures !ok ==>
                && log == old(log) && byInstance == old(byInstance) && byTrajectory == old(byTrajectory)
                && stamps == old(stamps)
    {
      FiledInstances(byInstance, log, items);
      FiledTrajectories(byTrajectory, log, items);
      FiledKeys(byInstance, items);
      ok := AddOrRollBack(items, now, failAt);
      if ok {
        StampedKeys(stamps, old(stamps), InstancesOf(items), now);
        log := log + items;
      }
    }

    /** write_many: a batch that does not validate changes nothing, and one that does is all or nothing. */
    method WriteMany(items: seq<Item>, now: int, failAt: Option<nat>) returns (ok: bool)
      requires Valid() && UniqueUids(log + items)
      modifies this
      ensures Valid()
      ensures ok <==> ValidBatch(items) && !(failAt.Some? && failAt.value < Updates(items))
      ensures ok ==> log == old(log) + items
      ensures !ok ==>
                && log == old(log) && byInstance == old(byInstance) && byTrajectory == old(byTrajectory)
                && stamps == old(stamps)
    {
      if !ValidBatch(items) {
        return false;
      }
      ok := WriteItems(items, now, failAt);
    }

    /** The by-instance half of a pop: removes the popped uids wherever they are filed. */
    method RemoveFromInstances(uids: set<nat>, affected: set<int>, now: int)
      modifies this`byInstance, this`stamps
      ensures Purged(byInstance, old(byInstance), affected, uids)
      ensures Restamped(stamps, old(stamps), byInstance, affected, now)
    {
      var rest := affected;
      while rest != {}
        invariant rest <= affected
        invariant Purged(byInstance, old(byInstance), affected - rest, uids)
        invariant Restamped(stamps, old(stamps), byInstance, affected - rest, now)
        decreases |rest|
      {
        Inhabited(rest);
        var i :| i in rest;
        PurgeStep(byInstance, old(byInstance), affected - rest, uids, i);
        var remaining := WithoutUids(Get(byInstance, i), uids);
        byInstance := PutOrDrop(byInstance, i, remaining);
        stamps := if |remaining| > 0 then stamps[i := now] else stamps - {i};
        assert affected - (rest - {i}) == affected - rest + {i};
        rest := rest - {i};
      }
      assert affected - rest == affected;
    }

    /** The loop over one drained instance. */
    method DrainOne(items: seq<Item>)
      requires items != []
      modifies this`byTrajectory
      ensures byTrajectory == DrainInstance(old(byTrajectory), items)
    {
      for n := 0 to |items|
        invariant byTrajectory == DrainItems(old(byTrajectory), items[..n])
      {
        assert items[..n + 1][..n] == items[..n];
        var x := items[n];
        var remaining := WithoutUid(Get(byTrajectory, x.trajectory), x.uid);
        if remaining != [] {
          byTrajectory := byTrajectory[x.trajectory := remaining];
        }
      }
      assert items[..|items|] == items;
      byTrajectory := byTrajectory - {items[|items| - 1].trajectory};
    }

    /** read_batch over the instances found ready: it hands out their items and forgets them. */
    method ReadBatch(ids: seq<int>) returns (groups: seq<seq<Item>>)
      requires Valid() && Drainable(log, ids)
      modifies this
      ensures |groups| == |ids| && forall n | 0 <= n < |ids| :: groups[n] == SortItems(OfInstance(old(log), ids[n]))
      ensures log == Undrained(old(log), ids) && UniqueUids(log) && ByInstance(byInstance, log)
      ensures ByTrajectory(byTrajectory, log) <==> CleanDrain(old(log), ids)
      ensures byTrajectory == DrainAll(old(byTrajectory), old(byInstance), ids)
      ensures stamps == WithoutTo(old(stamps), ids, |ids|) && Stamped()
    {
      ReadBatchAgreesIff(byTrajectory, byInstance, log, ids);
      KeptUnique(log, (x: Item) => x.instance !in ids);
      forall n | 0 <= n < |ids| ensures ids[n] in byInstance && byInstance[ids[n]] == OfInstance(log, ids[n]) {
        assert Holds(byInstance, ids[n], OfInstance(log, ids[n]));
      }
      WithoutSameKeys(stamps, byInstance, ids, |ids|);
      groups := DrainInstances(ids);
      forall i: int ensures Holds(byInstance, i, OfInstance(Undrained(log, ids), i)) {
        assert Holds(old(byInstance), i, OfInstance(log, i));
        UndrainedByInstance(log, ids, i);
        WithoutMembers(old(byInstance), ids, |ids|, i);
        assert ids[..|ids|] == ids;
      }
      log := Undrained(log, ids);
    }

    method DrainNext(i: int) returns (items: seq<Item>)
      requires i in byInstance && |byInstance[i]| > 0
      modifies this`byInstance, this`byTrajectory, this`stamps
      ensures items == SortItems(old(byInstance)[i]) && byInstance == old(byInstance) - {i}
      ensures byTrajectory == DrainInstance(old(byTrajectory), items) && stamps == old(stamps) - {i}
    {
      SortMembers(byInstance[i]);
      items := SortItems(byInstance[i]);
      byInstance := byInstance - {i};
      DrainOne(items);
      stamps := stamps - {i};
    }

    method DrainInstances(ids: seq<int>) returns (groups: seq<seq<Item>>)
      requires forall n | 0 <= n < |ids| :: ids[n] in byInstance && |byInstance[ids[n]]| > 0
      requires forall a, b | 0 <= a < b < |ids| :: ids[a] != ids[b]
      modifies this`byInstance, this`byTrajectory, this`stamps
      ensures groups == SortedGroups(old(byInstance), ids, |ids|)
      ensures byInstance == WithoutTo(old(byInstance), ids, |ids|)
      ensures byTrajectory == DrainAll(old(byTrajectory), old(byInstance), ids)
      ensures stamps == WithoutTo(old(stamps), ids, |ids|)
    {
      groups := [];
      for n := 0 to |ids|
        invariant groups == SortedGroups(old(byInstance), ids, n)
        invariant byInstance == WithoutTo(old(byInstance), ids, n)
        invariant byTrajectory == DrainTo(old(byTrajectory), old(byInstance), ids, n)
        invariant stamps == WithoutTo(old(stamps), ids, n)
      {
        assert ids[n] !in ids[..n];
        WithoutMembers(old(byInstance), ids, n, ids[n]);
        var items := DrainNext(ids[n]);
        groups := groups + [items];
      }
    }

    /**
      pop_trajectory: hands out what the trajectory index holds, in writing order. On agreeing indexes that is
      the trajectory's items, of one instance if asked, and they are taken from both.
     */
    method PopTrajectory(t: int, only: Option<int>, now: int) returns (matched: seq<Item>)
      modifies this
      ensures matched == OnlyIn(Get(old(byTrajectory), t), only)
      ensures old(Valid()) ==> Valid() && matched == Taken(old(log), t, only) && log == Kept(old(log), t, only)
      ensures Restamped(stamps, old(stamps), byInstance, InstancesOf(matched), now)
    {
      ghost var valid := Valid();
      var existing := Get(byTrajectory, t);
      matched := OnlyIn(existing, only);
      if valid {
        PopFacts(byTrajectory, log, t, only);
      }
      if |matched| == 0 {
        log := Kept(log, t, only);
        return;
      }
      byTrajectory := PutOrDrop(byTrajectory, t, NotIn(existing, only));
      var uids, affected := UidsOf(matched), InstancesOf(matched);
      ghost var before, times := byInstance, stamps;
      RemoveFromInstances(uids, affected, now);
      if valid {
        PurgedKeys(byInstance, before, affected, uids, stamps, times, now);
        PurgedInstances(byInstance, before, log, t, only, affected, uids);
      }
      log := Kept(log, t, only);
    }
  }

  lemma PopFacts(m: Index, log: seq<Item>, t: int, only: Option<int>)
    requires ByTrajectory(m, log) && UniqueUids(log)
    ensures Get(m, t) == OfTrajectory(log, t) && OnlyIn(Get(m, t), only) == Taken(log, t, only)
    ensures UniqueUids(Kept(log, t, only))
    ensures |Taken(log, t, only)| == 0 ==> Kept(log, t, only) == log
    ensures ByTrajectory(PutOrDrop(m, t, NotIn(OfTrajectory(log, t), only)), Kept(log, t, only))
  {
    assert Holds(m, t, OfTrajectory(log, t));
    TakenByTrajectory(log, t, only);
    KeptUnique(log, (x: Item) => !Popped(x, t, only));
    if |Taken(log, t, only)| == 0 {
      NothingTaken(log, t, only);
    }
    RestOfTrajectories(m, log, t, only);
  }

  lemma NothingTaken(log: seq<Item>, t: int, only: Option<int>)
    requires |Taken(log, t, only)| == 0
    ensures Kept(log, t, only) == log
  {
    forall k | 0 <= k < |log| ensures !Popped(log[k], t, only) {
      NotTaken(log, t, only, log[k]);
    }
    NothingFiltered(log, (x: Item) => !Popped(x, t, only));
  }

  lemma RestOfTrajectories(m: Index, log: seq<Item>, t: int, only: Option<int>)
    requires ByTrajectory(m, log)
    ensures ByTrajectory(PutOrDrop(m, t, NotIn(OfTrajectory(log, t), only)), Kept(log, t, only))
  {
    RestByTrajectory(log, t, only);
    forall u: int
      ensures Holds(PutOrDrop(m, t, NotIn(OfTrajectory(log, t), only)), u, OfTrajectory(Kept(log, t, only), u))
    {
      assert Holds(m, u, OfTrajectory(log, u));
      if u != t {
        KeptByTrajectory(log, t, only, u);
      }
    }
  }

  lemma UndrainedByInstance(log: seq<Item>, ids: seq<int>, i: int)
    ensures OfInstance(Undrained(log, ids), i) == if i in ids then [] else OfInstance(log, i)
  {
    var p, q := (x: Item) => x.instance !in ids, (x: Item) => x.instance == i;
    FilterTwice(log, p, q);
    if i in ids {
      NothingPasses(log, (x: Item) => p(x) && q(x));
    } else {
      FilterSame(log, (x: Item) => p(x) && q(x), q);
    }
  }

  lemma {:induction false} NothingPasses(log: seq<Item>, p: Item -> bool)
    requires forall x :: !p(x)
    ensures Filter(log, p) == []
  {
    if log != [] {
      NothingPasses(log[..|log| - 1], p);
    }
  }

  lemma {:induction false} KeptUnique(log: seq<Item>, p: Item -> bool)
    requires UniqueUids(log)
    ensures UniqueUids(Filter(log, p))
  {
    if log != [] {
      KeptUnique(log[..|log| - 1], p);
      FilterMembers(log[..|log| - 1], p);
      var before, last := Filter(log[..|log| - 1], p), log[|log| - 1];
      forall i | 0 <= i < |before| ensures before[i].uid != last.uid {
        assert before[i] in log[..|log| - 1];
      }
    }
  }
}
