/**
  Selecting the routed-expert rows of a recorded step from the payloads of its stitched chunks
  (dressage/proxy/routed_experts.py, with the chunk list that the generation loop builds).
 */
module RoutedExperts {
  import opened Wrappers
  import opened Sequences
  import opened Stitching

  datatype ExpertError =
    NegativeRange | UnsupportedDtype | SizeMismatch | Misaligned | WidthChanged | IdTooLarge | NotCovered

  datatype Dtype = UInt8 | UInt16 | Int32 | Other

  datatype Result<+T> = Ok(value: T) | Err(error: ExpertError)

  /** Selected rows: the expert ids, as int32 values narrowed to the storage type. */
  datatype Rows = Rows(values: seq<int>, rowCount: nat)

  // ------------------------------------------------------------- row ranges

  /** A payload holds one row per token but the last, counted from the start of the whole request. */
  function RowsHeld(c: ExpertChunk): int {
    c.prefixCount + c.outputCount - 1
  }

  /** Only the first chunk's prefix rows are used; later chunks repeat rows of earlier ones. */
  function ValidFrom(c: ExpertChunk): int {
    if c.isFirst then 0 else c.prefixCount - 1
  }

  function Max(a: int, b: int): int { if a > b then a else b }
  function Min(a: int, b: int): int { if a < b then a else b }

  /** The chunks' valid rows cover [from, to) one after the other, without gap or overlap. */
  predicate Tiles(cs: seq<ExpertChunk>, from: int, until: int) {
    if cs == [] then from == until
    else ValidFrom(cs[0]) == from && from <= RowsHeld(cs[0]) && Tiles(cs[1..], RowsHeld(cs[0]), until)
  }

  /** How many rows of [from, to) the chunks select. */
  function SelectedCount(cs: seq<ExpertChunk>, from: int, until: int): nat {
    if cs == [] then 0
    else Max(0, Min(RowsHeld(cs[0]), until) - Max(ValidFrom(cs[0]), from)) + SelectedCount(cs[1..], from, until)
  }

  lemma {:induction false} TilesOrdered(cs: seq<ExpertChunk>, a: int, b: int)
    requires Tiles(cs, a, b)
    ensures a <= b
  {
    if cs != [] {
      TilesOrdered(cs[1..], RowsHeld(cs[0]), b);
    }
  }

  lemma {:induction false} TiledSelection(cs: seq<ExpertChunk>, a: int, b: int, from: int, until: int)
    requires Tiles(cs, a, b)
    ensures SelectedCount(cs, from, until) == Max(0, Min(b, until) - Max(a, from))
  {
    if cs != [] {
      TilesOrdered(cs[1..], RowsHeld(cs[0]), b);
      TiledSelection(cs[1..], RowsHeld(cs[0]), b, from, until);
    }
  }

  // -------------------------------------------------- chunks of a generation

  lemma {:induction false} TilesSnoc(cs: seq<ExpertChunk>, a: int, b: int, c: ExpertChunk)
    requires Tiles(cs, a, b) && ValidFrom(c) == b && b <= RowsHeld(c)
    ensures Tiles(cs + [c], a, RowsHeld(c))
  {
    if cs == [] {
      assert (cs + [c])[1..] == [];
    } else {
      assert (cs + [c])[1..] == cs[1..] + [c];
      TilesSnoc(cs[1..], RowsHeld(cs[0]), b, c);
    }
  }

  /** Nothing held yet, or the chunks tile every row of the input and the tokens held, if there is any token. */
  predicate ChunksTile(input: seq<Token>, p: Partial) {
    if p.experts == [] then p.ids == [] else |input| + |p.ids| > 0 ==> Tiles(p.experts, 0, |input| + |p.ids| - 1)
  }

  /** Every answer carries routed-expert data. */
  ghost predicate CarriesExperts(serve: Backend) {
    forall k, prompt, limit :: serve(k, prompt, limit).Answered? ==> serve(k, prompt, limit).response.experts.Some?
  }

  lemma AppendTiles(input: seq<Token>, p: Partial, a: Attempt)
    requires ChunksTile(input, p)
    requires a.Answered? && a.response.experts.Some?
    requires p.ids == [] ==> p.experts == []
    ensures var q := Append(input, p, a.epoch, a.response, a.aborted);
            && ChunksTile(input, q)
            && (Interrupted(a.response, a.aborted) && q.ids == [] ==> q.experts == [])
  {
    var out := a.response.outputIds;
    var q := Append(input, p, a.epoch, a.response, a.aborted);
    if out != [] || !Interrupted(a.response, a.aborted) {
      var c := ExpertChunk(a.response.experts.value, |input| + |p.ids|, |out|, p.ids == []);
      assert q.experts == p.experts + [c];
      if p.experts == [] {
        assert |input| + |q.ids| > 0 ==> Tiles([c], 0, RowsHeld(c));
      } else {
        TilesSnoc(p.experts, 0, |input| + |p.ids| - 1, c);
      }
    } else {
      assert q.ids == p.ids;
    }
  }

  lemma AdvanceTiles(cfg: Config, input: seq<Token>, p: Partial, a: Attempt)
    requires ChunksTile(input, p) && (p.ids == [] ==> p.experts == [])
    requires a.Answered? ==> a.response.experts.Some?
    ensures var n := Advance(cfg, input, p, a);
            match n
            case Continue(q) => ChunksTile(input, q) && (q.ids == [] ==> q.experts == [])
            case Stop(o) => !o.Raised? ==> ChunksTile(input, Held(o))
  {
    if a.Answered? {
      AppendTiles(input, p, a);
      ReceiveTiles(cfg, input, p, a.epoch, a.response, a.aborted);
    } else if a.Failed? {
      NothingAppended(input, p, a.epoch);
      ReceiveTiles(cfg, input, p, a.epoch, NothingReturned, true);
    }
  }

  lemma NothingAppended(input: seq<Token>, p: Partial, epoch: nat)
    ensures var q := Append(input, p, epoch, NothingReturned, true); q.ids == p.ids && q.experts == p.experts
  {
  }

  lemma ReceiveTiles(cfg: Config, input: seq<Token>, p: Partial, epoch: nat, r: Response, aborted: bool)
    requires var q := Append(input, p, epoch, r, aborted);
             ChunksTile(input, q) && (Interrupted(r, aborted) && q.ids == [] ==> q.experts == [])
    ensures match Receive(cfg, input, p, epoch, r, aborted)
            case Continue(q) => ChunksTile(input, q) && (q.ids == [] ==> q.experts == [])
            case Stop(o) => !o.Raised? ==> ChunksTile(input, Held(o))
  {
  }

  lemma {:induction false} RunTiles(cfg: Config, input: seq<Token>, serve: Backend, k: nat, p: Partial, fuel: nat)
    requires CarriesExperts(serve)
    requires ChunksTile(input, p) && (p.ids == [] ==> p.experts == [])
    ensures var o := Run(cfg, input, serve, k, p, fuel); !o.Raised? ==> ChunksTile(input, Held(o))
    decreases fuel
  {
    if !Exhausted(cfg, p) && fuel > 0 {
      var a := serve(k, input + p.ids, Remaining(cfg, p));
      AdvanceTiles(cfg, input, p, a);
      var n := Advance(cfg, input, p, a);
      if n.Continue? {
        RunTiles(cfg, input, serve, k + 1, n.p, fuel - 1);
      }
    }
  }

  /** The chunk row ranges of any generation tile [0, total - 1). */
  lemma GenerationTiles(cfg: Config, input: seq<Token>, serve: Backend, attempts: nat)
    requires CarriesExperts(serve)
    ensures var o := Run(cfg, input, serve, 0, Empty, attempts); !o.Raised? ==> ChunksTile(input, Held(o))
  {
    RunTiles(cfg, input, serve, 0, Empty, attempts);
  }

  // ----------------------------------------------------------------- payloads

  /** r * width, by repeated addition so that reasoning about slices stays linear. */
  function Offset(r: nat, width: nat): nat {
    if r == 0 then 0 else Offset(r - 1, width) + width
  }

  lemma {:induction false} OffsetIsProduct(r: nat, width: nat)
    ensures Offset(r, width) == r * width
  {
    if r > 0 {
      OffsetIsProduct(r - 1, width);
      assert r * width == (r - 1) * width + width;
    }
  }

  lemma {:induction false} OffsetMonotone(a: nat, b: nat, width: nat)
    requires a <= b
    ensures Offset(a, width) <= Offset(b, width)
  {
    if a < b {
      OffsetMonotone(a, b - 1, width);
    }
  }

  lemma {:induction false} OffsetAligned(r: nat, width: nat)
    requires width % 4 == 0
    ensures Offset(r, width) % 4 == 0
  {
    if r > 0 {
      OffsetAligned(r - 1, width);
    }
  }

  /** The bytes of rows [lo, hi) of a payload with rows of `width` bytes. */
  function Slice(data: seq<int>, lo: nat, hi: nat, width: nat): seq<int> {
    if Offset(lo, width) <= Offset(hi, width) <= |data| then data[Offset(lo, width)..Offset(hi, width)] else []
  }

  predicate Covers(c: ExpertChunk, r: int) {
    ValidFrom(c) <= r < RowsHeld(c)
  }

  /** Row r of the whole request: from the chunk whose valid range holds it. */
  function RowOf(cs: seq<ExpertChunk>, r: nat, width: nat): seq<int> {
    if cs == [] then [] else if Covers(cs[0], r) then Slice(cs[0].data, r, r + 1, width) else RowOf(cs[1..], r, width)
  }

  function TargetRows(cs: seq<ExpertChunk>, from: nat, until: nat, width: nat): seq<int>
    decreases until - from
  {
    if from >= until then [] else RowOf(cs, from, width) + TargetRows(cs, from + 1, until, width)
  }

  predicate Sized(c: ExpertChunk, width: nat) {
    RowsHeld(c) > 0 ==> |c.data| == Offset(RowsHeld(c), width)
  }

  /** The bytes the loop cuts out of one chunk. */
  function Cut(c: ExpertChunk, from: int, until: int, width: nat): seq<int> {
    var lo, hi := Max(ValidFrom(c), from), Min(RowsHeld(c), until);
    if 0 <= lo < hi then Slice(c.data, lo, hi, width) else []
  }

  function SelectedBytes(cs: seq<ExpertChunk>, from: int, until: int, width: nat): seq<int> {
    if cs == [] then [] else Cut(cs[0], from, until, width) + SelectedBytes(cs[1..], from, until, width)
  }

  /** Offsets of rows held by a chunk lie in order inside its payload. */
  lemma OffsetsInside(c: ExpertChunk, lo: nat, mid: nat, hi: nat, width: nat)
    requires Sized(c, width) && lo <= mid <= hi <= RowsHeld(c) && RowsHeld(c) > 0
    ensures Offset(lo, width) <= Offset(mid, width) <= Offset(hi, width) <= |c.data|
  {
    OffsetMonotone(lo, mid, width);
    OffsetMonotone(mid, hi, width);
    OffsetMonotone(hi, RowsHeld(c), width);
  }

  /** Rows [lo, hi) of the request are a slice of the first chunk. */
  ghost predicate RowsAreSlice(cs: seq<ExpertChunk>, lo: nat, hi: nat, width: nat)
    requires cs != []
  {
    TargetRows(cs, lo, hi, width) == Slice(cs[0].data, lo, hi, width)
  }

  lemma OneRowIsSlice(cs: seq<ExpertChunk>, lo: nat, width: nat)
    requires cs != [] && Covers(cs[0], lo)
    ensures RowsAreSlice(cs, lo, lo + 1, width)
  {
    assert TargetRows(cs, lo + 1, lo + 1, width) == [];
  }

  lemma FirstRow(cs: seq<ExpertChunk>, lo: nat, hi: nat, width: nat)
    requires cs != [] && Covers(cs[0], lo) && lo < hi
    ensures TargetRows(cs, lo, hi, width) == Slice(cs[0].data, lo, lo + 1, width) + TargetRows(cs, lo + 1, hi, width)
  {
  }

  lemma OneRowMore(cs: seq<ExpertChunk>, lo: nat, hi: nat, width: nat)
    requires cs != [] && Sized(cs[0], width) && Covers(cs[0], lo) && lo < hi <= RowsHeld(cs[0])
    requires RowsAreSlice(cs, lo + 1, hi, width)
    ensures RowsAreSlice(cs, lo, hi, width)
  {
    var rows, rest := TargetRows(cs, lo, hi, width), TargetRows(cs, lo + 1, hi, width);
    assert rows == Slice(cs[0].data, lo, lo + 1, width) + rest by {
      FirstRow(cs, lo, hi, width);
    }
    OffsetsInside(cs[0], lo, lo + 1, hi, width);
    PrependSlice(cs[0].data, Offset(lo, width), Offset(lo + 1, width), Offset(hi, width), rows, rest);
  }

  lemma PrependSlice<T>(data: seq<T>, a: nat, b: nat, c: nat, rows: seq<T>, rest: seq<T>)
    requires a <= b <= c <= |data|
    requires rows == data[a..b] + rest && rest == data[b..c]
    ensures rows == data[a..c]
  {
  }

  /** A stretch of rows inside one chunk is one slice of its payload. */
  lemma {:induction false} SliceIsRows(cs: seq<ExpertChunk>, lo: nat, hi: nat, width: nat)
    requires cs != [] && Sized(cs[0], width)
    requires lo < hi <= RowsHeld(cs[0]) && ValidFrom(cs[0]) <= lo
    ensures RowsAreSlice(cs, lo, hi, width)
    decreases hi - lo
  {
    if lo + 1 < hi {
      SliceIsRows(cs, lo + 1, hi, width);
      OneRowMore(cs, lo, hi, width);
    } else {
      OneRowIsSlice(cs, lo, width);
    }
  }

  lemma {:induction false} TargetRowsSplit(cs: seq<ExpertChunk>, from: nat, mid: nat, until: nat, width: nat)
    requires from <= mid <= until
    ensures TargetRows(cs, from, until, width) == TargetRows(cs, from, mid, width) + TargetRows(cs, mid, until, width)
    decreases mid - from
  {
    if from < mid {
      TargetRowsSplit(cs, from + 1, mid, until, width);
    }
  }

  /** Rows past the first chunk come from the later chunks. */
  lemma {:induction false} TargetRowsTail(cs: seq<ExpertChunk>, from: nat, until: nat, width: nat)
    requires cs != [] && RowsHeld(cs[0]) <= from <= until
    ensures TargetRows(cs, from, until, width) == TargetRows(cs[1..], from, until, width)
    decreases until - from
  {
    if from < until {
      TargetRowsTail(cs, from + 1, until, width);
    }
  }

  lemma {:induction false} NothingBelow(cs: seq<ExpertChunk>, a: int, b: int, from: int, until: int, width: nat)
    requires Tiles(cs, a, b) && until <= a
    ensures SelectedBytes(cs, from, until, width) == []
  {
    if cs != [] {
      NothingBelow(cs[1..], RowsHeld(cs[0]), b, from, until, width);
    }
  }

  lemma {:induction false} NothingBetween(cs: seq<ExpertChunk>, at: int, width: nat)
    ensures SelectedBytes(cs, at, at, width) == []
  {
    if cs != [] {
      NothingBetween(cs[1..], at, width);
    }
  }

  lemma {:induction false} SelectionClips(cs: seq<ExpertChunk>, a: int, b: int, from: int, from': int, until: int,
                                          width: nat)
    requires Tiles(cs, a, b) && from <= a && from' <= a
    ensures SelectedBytes(cs, from, until, width) == SelectedBytes(cs, from', until, width)
  {
    if cs != [] {
      SelectionClips(cs[1..], RowsHeld(cs[0]), b, from, from', until, width);
    }
  }

  /** For tiling chunks of one width, the bytes cut out are exactly the target rows, in order. */
  lemma {:induction false} SelectionIsTarget(cs: seq<ExpertChunk>, a: int, b: int, from: nat, until: nat, width: nat)
    requires Tiles(cs, a, b) && 0 <= a <= from <= until <= b
    requires forall c | c in cs :: Sized(c, width)
    ensures SelectedBytes(cs, from, until, width) == TargetRows(cs, from, until, width)
  {
    if from == until {
      NothingBetween(cs, from, width);
    } else if cs != [] {
      var mid := RowsHeld(cs[0]);
      if from >= mid {
        TargetRowsTail(cs, from, until, width);
        SelectionIsTarget(cs[1..], mid, b, from, until, width);
        assert Cut(cs[0], from, until, width) == [];
      } else if until <= mid {
        SliceIsRows(cs, from, until, width);
        NothingBelow(cs[1..], mid, b, from, until, width);
      } else {
        SliceIsRows(cs, from, mid, width);
        TargetRowsSplit(cs, from, mid, until, width);
        TargetRowsTail(cs, mid, until, width);
        SelectionClips(cs[1..], mid, b, from, mid, until, width);
        SelectionIsTarget(cs[1..], mid, b, mid, until, width);
      }
    }
  }

  // ------------------------------------------------------------------- values

  /** A little-endian signed 32-bit word. */
  function Word(b0: int, b1: int, b2: int, b3: int): int {
    var u := b0 + 0x100 * b1 + 0x1_0000 * b2 + 0x100_0000 * b3;
    if u >= 0x8000_0000 then u - 0x1_0000_0000 else u
  }

  predicate IsByte(b: int) { 0 <= b < 0x100 }

  /** The word is the signed 32-bit number that is its bytes, lowest first, modulo 2 to the 32. */
  lemma WordReadsBack(b0: int, b1: int, b2: int, b3: int)
    requires IsByte(b0) && IsByte(b1) && IsByte(b2) && IsByte(b3)
    ensures var v := Word(b0, b1, b2, b3);
            && -0x8000_0000 <= v < 0x8000_0000
            && v % 0x1_0000_0000 == b0 + 0x100 * (b1 + 0x100 * (b2 + 0x100 * b3))
  {
  }

  function Words(bytes: seq<int>): (ws: seq<int>)
    ensures |ws| == |bytes| / 4
  {
    seq(|bytes| / 4, i requires 0 <= i < |bytes| / 4 =>
      Word(bytes[4 * i], bytes[4 * i + 1], bytes[4 * i + 2], bytes[4 * i + 3]))
  }

  lemma WordsAppend(a: seq<int>, b: seq<int>)
    requires |a| % 4 == 0
    ensures Words(a + b) == Words(a) + Words(b)
  {
    assert |a + b| / 4 == |a| / 4 + |b| / 4;
    forall i | 0 <= i < |a + b| / 4 ensures Words(a + b)[i] == (Words(a) + Words(b))[i] {
      if i >= |a| / 4 {
        var j := i - |a| / 4;
        assert 4 * i == |a| + 4 * j;
      }
    }
  }

  predicate Fits(v: int, dtype: Dtype) {
    match dtype
    case UInt8 => 0 <= v <= 0xFF
    case UInt16 => 0 <= v <= 0xFFFF
    case _ => true
  }

  /** An id fits when storing it in the narrower type, modulo its width, keeps it. */
  lemma FitsIffStoredWhole(v: int)
    ensures Fits(v, UInt8) <==> v % 0x100 == v
    ensures Fits(v, UInt16) <==> v % 0x1_0000 == v
  {
  }

  predicate AllFit(values: seq<int>, dtype: Dtype) {
    forall v | v in values :: Fits(v, dtype)
  }

  /** The errors a payload can cause. */
  predicate OfPayload(e: ExpertError) {
    e.SizeMismatch? || e.Misaligned? || e.WidthChanged? || e.IdTooLarge?
  }

  predicate WholeRows(c: ExpertChunk) {
    RowsHeld(c) > 0 && |c.data| % RowsHeld(c) == 0
  }

  function RowWidth(c: ExpertChunk): int
    requires RowsHeld(c) > 0
  {
    |c.data| / RowsHeld(c)
  }

  function AllValues(rows: seq<Rows>): seq<int> {
    if rows == [] then [] else AllValues(rows[..|rows| - 1]) + rows[|rows| - 1].values
  }

  function ValuesOf(r: Option<Rows>): seq<int> {
    if r.Some? then r.value.values else []
  }

  function CountOf(r: Option<Rows>): nat {
    if r.Some? then r.value.rowCount else 0
  }

  lemma AllValuesSnoc(rows: seq<Rows>, r: Rows)
    ensures AllValues(rows + [r]) == AllValues(rows) + r.values
  {
    assert (rows + [r])[..|rows|] == rows;
  }

  lemma {:induction false} DividesBack(rows: nat, width: nat)
    requires rows > 0
    ensures Offset(rows, width) % rows == 0 && Offset(rows, width) / rows == width
    decreases width
  {
    OffsetIsProduct(rows, width);
    Divides(rows, width);
  }

  lemma Divides(rows: nat, width: nat)
    requires rows > 0
    ensures (rows * width) % rows == 0 && (rows * width) / rows == width
  {
    Quotient(rows * width, rows, width);
  }

  lemma SmallMultiple(d: nat, e: int)
    ensures d > 0 && -1 * d < d * e < d ==> e == 0
  {
    if e >= 1 {
      assert d * e >= d;
    } else if e <= -1 {
      assert d * e <= -1 * d;
    }
  }

  lemma Quotient(n: nat, d: nat, q: nat)
    requires d > 0 && n == d * q
    ensures n / d == q && n % d == 0
  {
    assert n == d * (n / d) + n % d;
    assert d * (q - n / d) == n % d;
    SmallMultiple(d, q - n / d);
  }

  /** The payload has `w` bytes a row and the ids it contributes fit the dtype. */
  ghost predicate Cleanly(c: ExpertChunk, from: nat, until: nat, dtype: Dtype, w: nat) {
    && w > 0 && w % 4 == 0 && Sized(c, w)
    && forall v | v in Words(Cut(c, from, until, w)) :: Fits(v, dtype)
  }

  /** How wide a row of the chunk is, checked as the source checks it. */
  method MeasureRow(c: ExpertChunk, rowWidth: Option<nat>, ghost w: nat) returns (r: Result<nat>)
    ensures r.Ok? ==> WholeRows(c) && r.value == RowWidth(c) > 0 && r.value % 4 == 0
    ensures r == Err(SizeMismatch) <==> !WholeRows(c)
    ensures r == Err(Misaligned) <==> WholeRows(c) && (RowWidth(c) == 0 || RowWidth(c) % 4 != 0)
    ensures r.Err? ==> r.error in {SizeMismatch, Misaligned, WidthChanged}
    ensures r == Err(WidthChanged) <==>
              && WholeRows(c) && RowWidth(c) > 0 && RowWidth(c) % 4 == 0
              && rowWidth.Some? && rowWidth.value != RowWidth(c)
    ensures RowsHeld(c) > 0 && w > 0 && w % 4 == 0 && Sized(c, w) && (rowWidth.None? || rowWidth == Some(w)) ==>
              r == Ok(w)
  {
    var rawRows := RowsHeld(c);
    NotSized(c, w);
    if rawRows <= 0 || |c.data| % rawRows != 0 {
      return Err(SizeMismatch);
    }
    var current := |c.data| / rawRows;
    WidthIs(c, w);
    if current == 0 || current % 4 != 0 {
      return Err(Misaligned);
    }
    if rowWidth.Some? && current != rowWidth.value {
      return Err(WidthChanged);
    }
    return Ok(current);
  }

  method SelectRows(c: ExpertChunk, lo: nat, hi: nat, width: nat) returns (values: seq<int>)
    requires lo <= hi <= RowsHeld(c) && RowsHeld(c) > 0
    requires |c.data| % RowsHeld(c) == 0 && width == |c.data| / RowsHeld(c)
    ensures values == Words(Slice(c.data, lo, hi, width))
  {
    SliceBounds(c, lo, hi, width);
    values := Words(c.data[lo * width..hi * width]);
  }

  /** What one chunk contributes: nothing, its selected rows, or an error. */
  method SelectFrom(c: ExpertChunk, from: nat, until: nat, dtype: Dtype, rowWidth: Option<nat>, ghost w: nat)
    returns (r: Result<Option<Rows>>, width: Option<nat>)
    requires rowWidth.Some? ==> rowWidth.value > 0
    ensures width.Some? ==> width.value > 0
    ensures r.Err? ==> OfPayload(r.error)
    ensures r.Ok? ==> AllFit(ValuesOf(r.value), dtype)
    ensures r.Ok? ==> CountOf(r.value) == Max(0, Min(RowsHeld(c), until) - Max(ValidFrom(c), from))
    ensures Cleanly(c, from, until, dtype, w) && (rowWidth.None? || rowWidth == Some(w)) ==>
              && r.Ok? && (width.None? || width == Some(w))
              && ValuesOf(r.value) == Words(Cut(c, from, until, w))
  {
    width := rowWidth;
    var lo, hi := Max(ValidFrom(c), from), Min(RowsHeld(c), until);
    if lo >= hi {
      return Ok(None), width;
    }
    var measured := MeasureRow(c, rowWidth, w);
    if measured.Err? {
      return Err(measured.error), width;
    }
    width := Some(measured.value);
    var values := SelectRows(c, lo, hi, measured.value);
    if exists v | v in values :: !Fits(v, dtype) {
      return Err(IdTooLarge), width;
    }
    return Ok(Some(Rows(values, hi - lo))), width;
  }

  /** The running state of the canonicalization loop. */
  datatype Acc = Acc(rowWidth: Option<nat>, emitted: int, result: seq<Rows>)

  predicate WidthOk(a: Acc) { a.rowWidth.Some? ==> a.rowWidth.value > 0 }

  predicate WidthIn(a: Acc, w: nat) { a.rowWidth.None? || a.rowWidth == Some(w) }

  method Accumulate(c: ExpertChunk, from: nat, until: nat, dtype: Dtype, a: Acc, ghost w: nat) returns (r: Result<Acc>)
    requires WidthOk(a)
    ensures r.Err? ==> OfPayload(r.error)
    ensures r.Ok? ==> WidthOk(r.value)
    ensures r.Ok? && AllFit(AllValues(a.result), dtype) ==> AllFit(AllValues(r.value.result), dtype)
    ensures r.Ok? ==> r.value.emitted == a.emitted + Max(0, Min(RowsHeld(c), until) - Max(ValidFrom(c), from))
    ensures Cleanly(c, from, until, dtype, w) && WidthIn(a, w) ==>
              && r.Ok? && WidthIn(r.value, w)
              && AllValues(r.value.result) == AllValues(a.result) + Words(Cut(c, from, until, w))
  {
    var selected, width := SelectFrom(c, from, until, dtype, a.rowWidth, w);
    if selected.Err? {
      return Err(selected.error);
    }
    if selected.value.None? {
      assert AllValues(a.result) + [] == AllValues(a.result);
      return Ok(a.(rowWidth := width));
    }
    AllValuesSnoc(a.result, selected.value.value);
    return Ok(Acc(width, a.emitted + selected.value.value.rowCount, a.result + [selected.value.value]));
  }

  lemma NotSized(c: ExpertChunk, w: nat)
    ensures RowsHeld(c) > 0 && |c.data| % RowsHeld(c) != 0 ==> !Sized(c, w)
  {
    if RowsHeld(c) > 0 {
      DividesBack(RowsHeld(c), w);
    }
  }

  lemma WidthIs(c: ExpertChunk, w: nat)
    requires RowsHeld(c) > 0
    ensures Sized(c, w) ==> |c.data| / RowsHeld(c) == w
  {
    DividesBack(RowsHeld(c), w);
  }

  lemma SliceBounds(c: ExpertChunk, lo: nat, hi: nat, width: nat)
    requires lo <= hi <= RowsHeld(c) && RowsHeld(c) > 0
    requires |c.data| % RowsHeld(c) == 0 && width == |c.data| / RowsHeld(c)
    ensures lo * width == Offset(lo, width) <= Offset(hi, width) == hi * width <= |c.data|
  {
    OffsetIsProduct(lo, width);
    OffsetIsProduct(hi, width);
    OffsetIsProduct(RowsHeld(c), width);
    OffsetMonotone(lo, hi, width);
    OffsetMonotone(hi, RowsHeld(c), width);
    assert RowsHeld(c) * width == |c.data|;
  }

  /** Tiling chunks of one int32-aligned row width, holding the target, whose selected ids fit the dtype. */
  ghost predicate Clean(chunks: seq<ExpertChunk>, from: nat, until: nat, dtype: Dtype, bound: int, width: nat) {
    && Tiles(chunks, 0, bound) && until <= bound
    && width > 0 && width % 4 == 0
    && (forall c | c in chunks :: Sized(c, width))
    && (forall v | v in Words(TargetRows(chunks, from, until, width)) :: Fits(v, dtype))
  }

  /** After chunk i: what is emitted so far and what the remaining chunks select make up the target. */
  ghost predicate Progress(chunks: seq<ExpertChunk>, i: nat, from: nat, until: nat, dtype: Dtype, width: nat,
                           done: seq<int>)
    requires i <= |chunks|
  {
    && width > 0 && width % 4 == 0
    && (forall c | c in chunks :: Sized(c, width))
    && (forall v | v in done + Words(SelectedBytes(chunks[i..], from, until, width)) :: Fits(v, dtype))
    && done + Words(SelectedBytes(chunks[i..], from, until, width)) == Words(TargetRows(chunks, from, until, width))
  }

  lemma ProgressStarts(chunks: seq<ExpertChunk>, from: nat, until: nat, dtype: Dtype, bound: int, width: nat)
    requires Clean(chunks, from, until, dtype, bound, width) && from <= until
    ensures Progress(chunks, 0, from, until, dtype, width, [])
  {
    SelectionIsTarget(chunks, 0, bound, from, until, width);
    assert chunks[0..] == chunks;
    var ws := Words(SelectedBytes(chunks, from, until, width));
    assert [] + ws == ws;
  }

  /** What remains after chunk i, split into its own words and the rest. */
  lemma RemainingSplits(chunks: seq<ExpertChunk>, i: nat, from: nat, until: nat, width: nat)
    requires i < |chunks| && width % 4 == 0
    ensures Words(SelectedBytes(chunks[i..], from, until, width)) ==
            Words(Cut(chunks[i], from, until, width)) + Words(SelectedBytes(chunks[i + 1..], from, until, width))
  {
    assert chunks[i..][1..] == chunks[i + 1..] && chunks[i..][0] == chunks[i];
    SelectedWords(chunks[i..], from, until, width);
  }

  lemma MiddleFits(a: seq<int>, b: seq<int>, c: seq<int>, dtype: Dtype)
    requires forall v | v in a + (b + c) :: Fits(v, dtype)
    ensures (forall v | v in b :: Fits(v, dtype)) && forall v | v in (a + b) + c :: Fits(v, dtype)
  {
    Regroup(a, b, c);
    forall v | v in b ensures Fits(v, dtype) {
      assert v in a + (b + c);
    }
  }

  lemma ProgressSteps(chunks: seq<ExpertChunk>, i: nat, from: nat, until: nat, dtype: Dtype, width: nat, done: seq<int>)
    requires i < |chunks| && Progress(chunks, i, from, until, dtype, width, done)
    ensures Cleanly(chunks[i], from, until, dtype, width)
    ensures Progress(chunks, i + 1, from, until, dtype, width, done + Words(Cut(chunks[i], from, until, width)))
  {
    RemainingSplits(chunks, i, from, until, width);
    var cut := Words(Cut(chunks[i], from, until, width));
    var rest := Words(SelectedBytes(chunks[i + 1..], from, until, width));
    MiddleFits(done, cut, rest, dtype);
    Regroup(done, cut, rest);
    assert chunks[i] in chunks;
  }

  /**
    Canonicalize the chunks of one step. `bound` and `width` are ghost: when the chunks tile
    [0, bound) and the target lies inside, coverage never fails; when moreover every payload has
    `width` bytes a row and the ids fit the dtype, exactly the target rows come out, in order.
   */
  method CanonicalizeRoutedExperts(chunks: seq<ExpertChunk>, start: int, count: int, dtype: Dtype,
                                   ghost bound: int, ghost width: nat)
    returns (r: Result<seq<Rows>>)
    ensures r == Err(NegativeRange) <==> start < 0 || count < 0
    ensures r == Err(UnsupportedDtype) <==> start >= 0 && count >= 0 && dtype == Other
    ensures start >= 0 && dtype != Other && (count == 0 || (count > 0 && chunks == [])) ==> r == Ok([])
    ensures r.Ok? ==> AllFit(AllValues(r.value), dtype)
    ensures r.Ok? && count > 0 && chunks != [] ==> SelectedCount(chunks, start, start + count) == count
    ensures r == Err(NotCovered) ==> count > 0 && SelectedCount(chunks, start, start + count) != count
    ensures count <= 0 || (Tiles(chunks, 0, bound) && start + count <= bound) ==> r != Err(NotCovered)
    ensures 0 <= start && 0 < count && dtype != Other && Clean(chunks, start, start + count, dtype, bound, width) ==>
              r.Ok? && AllValues(r.value) == Words(TargetRows(chunks, start, start + count, width))
  {
    if start < 0 || count < 0 {
      return Err(NegativeRange);
    }
    if dtype == Other {
      return Err(UnsupportedDtype);
    }
    if chunks == [] || count == 0 {
      return Ok([]);
    }
    var end := start + count;
    ghost var sound := Clean(chunks, start, end, dtype, bound, width);
    if sound {
      ProgressStarts(chunks, start, end, dtype, bound, width);
    }
    if Tiles(chunks, 0, bound) && end <= bound {
      TiledSelection(chunks, 0, bound, start, end);
    }
    var acc := AccumulateAll(chunks, start, end, dtype, width, sound);
    if acc.Err? {
      return Err(acc.error);
    }
    if acc.value.emitted != count {
      return Err(NotCovered);
    }
    return Ok(acc.value.result);
  }

  /** The loop over the chunks. */
  method AccumulateAll(chunks: seq<ExpertChunk>, start: nat, end: nat, dtype: Dtype, ghost width: nat,
                       ghost sound: bool)
    returns (r: Result<Acc>)
    requires sound ==> Progress(chunks, 0, start, end, dtype, width, [])
    ensures r.Err? ==> OfPayload(r.error)
    ensures r.Ok? ==> r.value.emitted == SelectedCount(chunks, start, end) && AllFit(AllValues(r.value.result), dtype)
    ensures sound ==> r.Ok? && AllValues(r.value.result) == Words(TargetRows(chunks, start, end, width))
  {
    var acc := Acc(None, 0, []);
    var i := 0;
    assert chunks[0..] == chunks;
    while i < |chunks|
      invariant 0 <= i <= |chunks| && WidthOk(acc)
      invariant acc.emitted + SelectedCount(chunks[i..], start, end) == SelectedCount(chunks, start, end)
      invariant AllFit(AllValues(acc.result), dtype)
      invariant sound ==> WidthIn(acc, width)
      invariant sound ==> Progress(chunks, i, start, end, dtype, width, AllValues(acc.result))
    {
      assert chunks[i..][1..] == chunks[i + 1..] && chunks[i..][0] == chunks[i];
      if sound {
        ProgressSteps(chunks, i, start, end, dtype, width, AllValues(acc.result));
      }
      var next := Accumulate(chunks[i], start, end, dtype, acc, width);
      if next.Err? {
        return Err(next.error);
      }
      acc := next.value;
      i := i + 1;
    }
    if sound {
      ProgressEnds(chunks, start, end, dtype, width, AllValues(acc.result));
    }
    return Ok(acc);
  }

  lemma ProgressEnds(chunks: seq<ExpertChunk>, from: nat, until: nat, dtype: Dtype, width: nat, done: seq<int>)
    requires Progress(chunks, |chunks|, from, until, dtype, width, done)
    ensures done == Words(TargetRows(chunks, from, until, width))
  {
    assert chunks[|chunks|..] == [];
    assert done + [] == done;
  }

  lemma CutAligned(c: ExpertChunk, from: int, until: int, width: nat)
    requires width % 4 == 0
    ensures |Cut(c, from, until, width)| % 4 == 0
  {
    var lo, hi := Max(ValidFrom(c), from), Min(RowsHeld(c), until);
    if 0 <= lo < hi {
      OffsetAligned(lo, width);
      OffsetAligned(hi, width);
    }
  }

  lemma SelectedWords(cs: seq<ExpertChunk>, from: int, until: int, width: nat)
    requires width % 4 == 0
    ensures cs != [] ==>
              Words(SelectedBytes(cs, from, until, width))
              == Words(Cut(cs[0], from, until, width)) + Words(SelectedBytes(cs[1..], from, until, width))
  {
    if cs != [] {
      CutAligned(cs[0], from, until, width);
      WordsAppend(Cut(cs[0], from, until, width), SelectedBytes(cs[1..], from, until, width));
    }
  }

  // ------------------------------------------------------- the server's targets

  /** The rows recorded for a step: `prefix` tokens were recorded before it, `added` by it. */
  function TargetStart(prefix: nat): nat {
    if prefix == 0 then 0 else prefix - 1
  }

  function TargetCount(prefix: nat, added: nat): nat {
    if prefix == 0 then Max(0, added - 1) else added
  }

  /** The target ends one short of the tokens recorded with and before the step. */
  lemma TargetEnds(prefix: nat, added: nat)
    ensures TargetStart(prefix) + TargetCount(prefix, added) == Max(0, prefix + added - 1)
  {
  }

  /** The prompt was let through to generation: it leaves room in the context window. */
  predicate PromptFits(cfg: Config, input: seq<Token>) {
    cfg.contextWindow.Some? ==> |input| < cfg.contextWindow.value
  }

  /** A generation of a prompt that fits does not finish without a chunk. */
  lemma {:induction false} DoneHasChunks(cfg: Config, input: seq<Token>, serve: Backend, k: nat, p: Partial, fuel: nat)
    requires CarriesExperts(serve) && PromptFits(cfg, input)
    requires ChunksTile(input, p) && (p.ids == [] ==> p.experts == [])
    ensures var o := Run(cfg, input, serve, k, p, fuel); o.Done? ==> o.result.experts != []
    decreases fuel
  {
    if !Exhausted(cfg, p) && fuel > 0 {
      var a := serve(k, input + p.ids, Remaining(cfg, p));
      AdvanceTiles(cfg, input, p, a);
      var n := Advance(cfg, input, p, a);
      if n.Continue? {
        DoneHasChunks(cfg, input, serve, k + 1, n.p, fuel - 1);
      } else if n.outcome.Done? {
        DoneAppendsChunk(cfg, input, p, a);
      }
    }
  }

  lemma DoneAppendsChunk(cfg: Config, input: seq<Token>, p: Partial, a: Attempt)
    requires PromptFits(cfg, input) && ChunksTile(input, p) && (a.Answered? ==> a.response.experts.Some?)
    requires var n := Advance(cfg, input, p, a); n.Stop? && n.outcome.Done?
    ensures Advance(cfg, input, p, a).outcome.result.experts != []
  {
    if a.Failed? {
      NothingAppended(input, p, a.epoch);
    }
  }
}
