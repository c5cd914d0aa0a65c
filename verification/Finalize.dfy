/**
  Finalizing a session: its segments become the records of one batch, which the store accepts
  (dressage/proxy/server.py:2800-2887).
 */
module Finalize {
  import opened Wrappers
  import opened Lineages
  import Routing
  import Recorder
  import opened Segments
  import TrajectoryStore

  /** Everything but the payload of one record: record `k` of `n` in its view. */
  function RecordItem(uid: nat, t: int, i: int, k: nat, n: nat, view: TrajectoryStore.View,
                      marker: TrajectoryStore.Marker, now: int): TrajectoryStore.Item
  {
    TrajectoryStore.Item(uid, t, i, k, n, view, now, Some(marker))
  }

  function ViewItems(first: nat, t: int, i: int, n: nat, view: TrajectoryStore.View, marker: TrajectoryStore.Marker,
                     now: int):
      (r: seq<TrajectoryStore.Item>)
    ensures |r| == n
    ensures forall k | 0 <= k < n :: r[k] == RecordItem(first + k, t, i, k, n, view, marker, now)
  {
    seq(n, k requires 0 <= k < n => RecordItem(first + k, t, i, k, n, view, marker, now))
  }

  /** One lineage record per segment and one timeline record per step. */
  function Batch(s: Session, first: nat, t: int, i: int, marker: TrajectoryStore.Marker,
                 now: int): seq<TrajectoryStore.Item> {
    var n := |LineageSegments(s)|;
    ViewItems(first, t, i, n, TrajectoryStore.LineageView, marker, now)
    + ViewItems(first + n, t, i, |s.steps|, TrajectoryStore.TimelineView, marker, now)
  }

  /** The record-building loops of finalize_session. */
  method BuildBatch(s: Session, first: nat, t: int, i: int, marker: TrajectoryStore.Marker, now: int)
    returns (items: seq<TrajectoryStore.Item>, records: seq<Option<TrainingRecord>>)
    ensures items == Batch(s, first, t, i, marker, now)
    ensures |records| == |LineageSegments(s)|
    ensures Inv(s) ==> forall k | 0 <= k < |records| :: records[k] == Some(RecordOf(LineageSegments(s)[k]))
  {
    var segments := SplitIntoSegments(s);
    items, records := [], [];
    var n := |segments|;
    for k := 0 to n
      invariant items == ViewItems(first, t, i, n, TrajectoryStore.LineageView, marker, now)[..k]
      invariant |records| == k
      invariant Inv(s) ==> forall j | 0 <= j < k :: records[j] == Some(RecordOf(segments[j]))
    {
      var r := BuildRecord(segments[k]);
      if Inv(s) {
        SegmentIsMasked(s, k);
      }
      records := records + [r];
      items := items + [RecordItem(first + k, t, i, k, n, TrajectoryStore.LineageView, marker, now)];
    }
    ghost var lineage := items;
    for k := 0 to |s.steps|
      invariant items == lineage + ViewItems(first + n, t, i, |s.steps|, TrajectoryStore.TimelineView, marker, now)[..k]
    {
      items := items + [RecordItem(first + n + k, t, i, k, |s.steps|, TrajectoryStore.TimelineView, marker, now)];
    }
  }

  lemma SegmentIsMasked(s: Session, k: nat)
    requires AllMasked(s.steps) && k < |LineageSegments(s)|
    ensures AllMasked(LineageSegments(s)[k])
  {
    SegmentsDrawn(s.steps, |s.lineages|);
    var g := LineageSegments(s)[k];
    forall j | 0 <= j < |g| ensures Masked(g[j]) {
      assert LineageSegments(s)[k][j] in s.steps;
    }
  }

  /** A batch built by finalize always passes the store's completeness check, and its uids are new and distinct. */
  lemma FinalizeBuildsValidBatch(s: Session, first: nat, t: int, i: int, marker: TrajectoryStore.Marker, now: int)
    requires marker.id != "" && marker.complete
    ensures TrajectoryStore.ValidBatch(Batch(s, first, t, i, marker, now))
    ensures TrajectoryStore.UniqueUids(Batch(s, first, t, i, marker, now))
  {
    var n := |LineageSegments(s)|;
    var lineage := ViewItems(first, t, i, n, TrajectoryStore.LineageView, marker, now);
    var timeline := ViewItems(first + n, t, i, |s.steps|, TrajectoryStore.TimelineView, marker, now);
    ViewIsNumbered(first, t, i, n, TrajectoryStore.LineageView, marker, now);
    ViewIsNumbered(first + n, t, i, |s.steps|, TrajectoryStore.TimelineView, marker, now);
    TrajectoryStore.NumberedBatchIsValid(lineage, timeline, t, i, marker);
    CountedUids(lineage, timeline, first);
  }

  lemma ViewIsNumbered(first: nat, t: int, i: int, n: nat, view: TrajectoryStore.View, marker: TrajectoryStore.Marker,
                       now: int)
    ensures var xs := ViewItems(first, t, i, n, view, marker, now);
            && TrajectoryStore.NumberedView(xs, view)
            && (forall x | x in xs :: x.trajectory == t && x.instance == i && x.finalization == Some(marker))
            && (forall k | 0 <= k < n :: xs[k].uid == first + k)
  {
  }

  lemma CountedUids(a: seq<TrajectoryStore.Item>, b: seq<TrajectoryStore.Item>, first: nat)
    requires forall k | 0 <= k < |a| :: a[k].uid == first + k
    requires forall k | 0 <= k < |b| :: b[k].uid == first + |a| + k
    ensures TrajectoryStore.UniqueUids(a + b)
  {
    assert forall j | 0 <= j < |a + b| :: (a + b)[j].uid == first + j;
  }

  /**
    The whole way from requests to training data: for every run and every segment finalize builds, the
    record is what the model saw up to the segment's last step, with its mask on responses alone; and
    every response token recorded in the run is trained in exactly one record.
   */
  lemma FinalizedRunIsFaithful(tp: Routing.Template, tk: Tokenizer, run: seq<Recorder.Event>, k: nat, o: Origin)
    requires k < |LineageSegments(Recorder.Reached(tp, tk, run))|
    ensures var s := Recorder.Reached(tp, tk, run);
            var g := LineageSegments(s)[k];
            var r := RecordOf(g);
            && r.tokens == g[|g| - 1].prompt + g[|g| - 1].response
            && Labelled(r.tokens, r.mask, r.versions, FlatOrigins(g), g)
            && TimesTrained(LineageSegments(s), o) ==
               if exists i | 0 <= i < |s.steps| :: Produces(s.steps[i], o) == 1 then 1 else 0
  {
    var s := Recorder.Reached(tp, tk, run);
    Recorder.RunKeepsInv(tp, tk, Empty, run);
    RecordsAreFaithful(s, k);
    TrainedExactlyOnce(s, o);
    LastStepIsExact(s, k);
  }

  lemma LastStepIsExact(s: Session, k: nat)
    requires Inv(s) && k < |LineageSegments(s)|
    ensures var g := LineageSegments(s)[k]; g[|g| - 1].allTokens == g[|g| - 1].prompt + g[|g| - 1].response
  {
    SegmentsDrawn(s.steps, |s.lineages|);
    var g := LineageSegments(s)[k];
    assert LineageSegments(s)[k][|g| - 1] in s.steps;
    var i :| 0 <= i < |s.steps| && s.steps[i] == g[|g| - 1];
    assert ExactAt(s.steps, i);
  }
}
