// Building the combined image: the filter on names, the walk that uploads one
// plane per destination (channel outer, Z middle, T inner), the per-channel
// display range, the channel names and colours, and the pixel sizes.

module Assembly {
  import opened Common
  import opened PixelSizes
  import opened Assignment

  // ---------------------------------------------------------------------
  // The order planes are uploaded in

  /** Destination `x` is uploaded before `y`: channel first, then Z, then T. */
  predicate Precedes(x: Coord, y: Coord)
  {
    x.c < y.c || (x.c == y.c && (x.z < y.z || (x.z == y.z && x.t < y.t)))
  }

  /** Every destination precedes every later one. */
  predicate Increasing(s: seq<Coord>)
  {
    forall i, j {:trigger Precedes(s[i], s[j])} | 0 <= i < j < |s| :: Precedes(s[i], s[j])
  }

  /** The T walk for one channel and one Z. */
  function Row(c: nat, z: nat, nt: nat): seq<Coord>
  {
    if nt == 0 then [] else Row(c, z, nt - 1) + [Coord(z, c, nt - 1)]
  }

  /** The Z and T walk for one channel, over the first `nz` Z indices. */
  function Block(c: nat, nz: nat, st: nat): seq<Coord>
  {
    if nz == 0 then [] else Block(c, nz - 1, st) + Row(c, nz - 1, st)
  }

  /** The whole walk over the first `nc` channels. */
  function Order(nc: nat, sz: nat, st: nat): seq<Coord>
  {
    if nc == 0 then [] else Order(nc - 1, sz, st) + Block(nc - 1, sz, st)
  }

  /** The T walk has one entry per T index, the `t`-th at T index `t`. */
  lemma {:induction false} RowAt(c: nat, z: nat, nt: nat, i: nat)
    ensures |Row(c, z, nt)| == nt
    ensures i < nt ==> Row(c, z, nt)[i] == Coord(z, c, i)
  {
    if nt > 0 {
      RowAt(c, z, nt - 1, i);
    }
  }

  /** A channel's walk has one entry per Z and T index. */
  lemma {:induction false} BlockLength(c: nat, nz: nat, st: nat)
    ensures |Block(c, nz, st)| == nz * st
  {
    if nz > 0 {
      BlockLength(c, nz - 1, st);
      RowAt(c, nz - 1, st, 0);
      MulPred(nz, st);
    }
  }

  /** One more row of `m`. */
  lemma {:induction false} MulPred(n: nat, m: nat)
    requires n > 0
    ensures n * m == (n - 1) * m + m
  {
  }

  /** Every entry of a channel's walk lies in that channel, below the Z and
      T bounds. */
  lemma {:induction false} BlockAt(c: nat, nz: nat, st: nat, i: nat)
    requires i < |Block(c, nz, st)|
    ensures Block(c, nz, st)[i].c == c && Block(c, nz, st)[i].z < nz && Block(c, nz, st)[i].t < st
  {
    var earlier := Block(c, nz - 1, st);
    if i < |earlier| {
      BlockAt(c, nz - 1, st, i);
    } else {
      RowAt(c, nz - 1, st, i - |earlier|);
    }
  }

  /** The walk has one entry per destination of the box. */
  lemma {:induction false} OrderLength(nc: nat, sz: nat, st: nat)
    ensures |Order(nc, sz, st)| == nc * (sz * st)
  {
    if nc > 0 {
      OrderLength(nc - 1, sz, st);
      BlockLength(nc - 1, sz, st);
      MulPred(nc, sz * st);
    }
  }

  /** Every entry of the walk lies in the box. */
  lemma {:induction false} OrderAt(nc: nat, sz: nat, st: nat, i: nat)
    requires i < |Order(nc, sz, st)|
    ensures Order(nc, sz, st)[i].c < nc && Order(nc, sz, st)[i].z < sz && Order(nc, sz, st)[i].t < st
  {
    var earlier := Order(nc - 1, sz, st);
    if i < |earlier| {
      OrderAt(nc - 1, sz, st, i);
    } else {
      BlockAt(nc - 1, sz, st, i - |earlier|);
    }
  }

  /** A channel's walk reaches every destination of that channel below the
      Z and T bounds; `i` is where. */
  lemma {:induction false} BlockReaches(c: nat, nz: nat, st: nat, k: Coord) returns (i: nat)
    requires k.c == c && k.z < nz && k.t < st
    ensures i < |Block(c, nz, st)| && Block(c, nz, st)[i] == k
  {
    var earlier := Block(c, nz - 1, st);
    RowAt(c, nz - 1, st, k.t);
    if k.z < nz - 1 {
      i := BlockReaches(c, nz - 1, st, k);
    } else {
      i := |earlier| + k.t;
    }
  }

  /** The walk reaches every destination of the box; `i` is where. */
  lemma {:induction false} OrderReaches(nc: nat, sz: nat, st: nat, k: Coord) returns (i: nat)
    requires k.c < nc && k.z < sz && k.t < st
    ensures i < |Order(nc, sz, st)| && Order(nc, sz, st)[i] == k
  {
    var earlier := Order(nc - 1, sz, st);
    if k.c < nc - 1 {
      i := OrderReaches(nc - 1, sz, st, k);
    } else {
      var j := BlockReaches(nc - 1, sz, st, k);
      i := |earlier| + j;
    }
  }

  /** The walk visits exactly the destinations of the box. */
  lemma {:induction false} OrderMember(nc: nat, sz: nat, st: nat, k: Coord)
    ensures k in Order(nc, sz, st) <==> k.c < nc && k.z < sz && k.t < st
  {
    if k in Order(nc, sz, st) {
      var i :| 0 <= i < |Order(nc, sz, st)| && Order(nc, sz, st)[i] == k;
      OrderAt(nc, sz, st, i);
    }
    if k.c < nc && k.z < sz && k.t < st {
      var i := OrderReaches(nc, sz, st, k);
    }
  }

  /** Two increasing walks, the first wholly before the second, make an
      increasing walk. */
  lemma {:induction false} IncreasingConcat(a: seq<Coord>, b: seq<Coord>, w: seq<Coord>)
    requires w == a + b
    requires Increasing(a) && Increasing(b)
    requires forall i, j | 0 <= i < |a| && 0 <= j < |b| :: Precedes(a[i], b[j])
    ensures Increasing(w)
  {
    forall i, j | 0 <= i < j < |a + b|
      ensures Precedes((a + b)[i], (a + b)[j])
    {
      if j < |a| {
        assert (a + b)[i] == a[i] && (a + b)[j] == a[j];
        assert Precedes(a[i], a[j]);
      } else if i < |a| {
        assert (a + b)[i] == a[i] && (a + b)[j] == b[j - |a|];
      } else {
        assert (a + b)[i] == b[i - |a|] && (a + b)[j] == b[j - |a|];
        assert Precedes(b[i - |a|], b[j - |a|]);
      }
    }
  }

  /** The T walk over the first `n` T indices comes before T index `n`. */
  lemma {:induction false} RowBefore(c: nat, z: nat, n: nat)
    ensures forall i | 0 <= i < |Row(c, z, n)| :: Precedes(Row(c, z, n)[i], Coord(z, c, n))
  {
    forall i | 0 <= i < |Row(c, z, n)|
      ensures Precedes(Row(c, z, n)[i], Coord(z, c, n))
    {
      RowAt(c, z, n, i);
    }
  }

  /** The T walk is increasing. */
  lemma {:induction false} RowIncreasing(c: nat, z: nat, nt: nat)
    ensures Increasing(Row(c, z, nt))
  {
    if nt > 0 {
      RowIncreasing(c, z, nt - 1);
      RowBefore(c, z, nt - 1);
      IncreasingConcat(Row(c, z, nt - 1), [Coord(z, c, nt - 1)], Row(c, z, nt));
    }
  }

  /** The walk over the first `z` Z indices of a channel comes before the
      T walk at Z index `z`. */
  lemma {:induction false} RowPrecedes(c: nat, z: nat, st: nat)
    ensures forall i, j | 0 <= i < |Block(c, z, st)| && 0 <= j < |Row(c, z, st)| ::
      Precedes(Block(c, z, st)[i], Row(c, z, st)[j])
  {
    forall i, j | 0 <= i < |Block(c, z, st)| && 0 <= j < |Row(c, z, st)|
      ensures Precedes(Block(c, z, st)[i], Row(c, z, st)[j])
    {
      BlockAt(c, z, st, i);
      RowAt(c, z, st, j);
    }
  }

  /** The walk over the first `c` channels comes before channel `c`'s walk. */
  lemma {:induction false} ChannelPrecedes(c: nat, sz: nat, st: nat)
    ensures forall i, j | 0 <= i < |Order(c, sz, st)| && 0 <= j < |Block(c, sz, st)| ::
      Precedes(Order(c, sz, st)[i], Block(c, sz, st)[j])
  {
    forall i, j | 0 <= i < |Order(c, sz, st)| && 0 <= j < |Block(c, sz, st)|
      ensures Precedes(Order(c, sz, st)[i], Block(c, sz, st)[j])
    {
      OrderAt(c, sz, st, i);
      BlockAt(c, sz, st, j);
    }
  }

  /** One more T walk keeps a channel's walk increasing. */
  lemma {:induction false} BlockStep(c: nat, nz: nat, st: nat)
    requires nz > 0
    requires Increasing(Block(c, nz - 1, st)) && Increasing(Row(c, nz - 1, st))
    ensures Increasing(Block(c, nz, st))
  {
    RowPrecedes(c, nz - 1, st);
    IncreasingConcat(Block(c, nz - 1, st), Row(c, nz - 1, st), Block(c, nz, st));
  }

  /** One more channel's walk keeps the walk increasing. */
  lemma {:induction false} OrderStep(nc: nat, sz: nat, st: nat)
    requires nc > 0
    requires Increasing(Order(nc - 1, sz, st)) && Increasing(Block(nc - 1, sz, st))
    ensures Increasing(Order(nc, sz, st))
  {
    ChannelPrecedes(nc - 1, sz, st);
    IncreasingConcat(Order(nc - 1, sz, st), Block(nc - 1, sz, st), Order(nc, sz, st));
  }

  /** A channel's walk is increasing in (Z, T) order. */
  lemma {:induction false} BlockIncreasing(c: nat, nz: nat, st: nat)
    ensures Increasing(Block(c, nz, st))
  {
    if nz > 0 {
      BlockIncreasing(c, nz - 1, st);
      RowIncreasing(c, nz - 1, st);
      BlockStep(c, nz, st);
    }
  }

  /** The walk is strictly increasing in (channel, Z, T) order, so it visits
      each destination exactly once. */
  lemma {:induction false} OrderIncreasing(nc: nat, sz: nat, st: nat)
    ensures Increasing(Order(nc, sz, st))
  {
    if nc > 0 {
      OrderIncreasing(nc - 1, sz, st);
      BlockIncreasing(nc - 1, sz, st);
      OrderStep(nc, sz, st);
    }
  }

  // ---------------------------------------------------------------------
  // Planes and uploads

  /** A plane's pixel values, row after row. */
  type Plane = seq<int>

  /** One plane written to the combined image at (z, c, t). */
  datatype Upload = Upload(z: nat, c: nat, t: nat, plane: Plane)

  /** The combined image's pixel store. Only the uploads it receives, in
      order, are observed. */
  class PixelStore {
    ghost var log: seq<Upload>

    constructor ()
      ensures log == []
    {
      log := [];
    }

    method UploadPlane(plane: Plane, z: nat, c: nat, t: nat)
      modifies this
      ensures log == old(log) + [Upload(z, c, t, plane)]
    {
      log := log + [Upload(z, c, t, plane)];
    }
  }

  /** A plane of `n` zero pixels. */
  function Zeros(n: nat): (p: Plane)
    ensures |p| == n && forall i | 0 <= i < n :: p[i] == 0
  {
    seq(n, _ => 0)
  }

  /** The plane uploaded at `k`: the source plane when `k` was assigned one,
      else a zero plane of `area` pixels. */
  function PlaneAt(k: Coord, planes: map<Coord, Locator>, fetch: Locator -> Plane, area: nat): Plane
  {
    if k in planes then fetch(planes[k]) else Zeros(area)
  }

  /** The upload made at destination `k`. */
  function UploadAt(k: Coord, planes: map<Coord, Locator>, fetch: Locator -> Plane, area: nat): Upload
  {
    Upload(k.z, k.c, k.t, PlaneAt(k, planes, fetch, area))
  }

  /** The uploads made while walking `cells`. */
  function Uploads(cells: seq<Coord>, planes: map<Coord, Locator>, fetch: Locator -> Plane, area: nat): seq<Upload>
  {
    if cells == [] then []
    else Uploads(cells[..|cells| - 1], planes, fetch, area) + [UploadAt(cells[|cells| - 1], planes, fetch, area)]
  }

  lemma {:induction false} UploadsAppend(cells: seq<Coord>, k: Coord, planes: map<Coord, Locator>, fetch: Locator -> Plane, area: nat)
    ensures Uploads(cells + [k], planes, fetch, area) == Uploads(cells, planes, fetch, area) + [UploadAt(k, planes, fetch, area)]
  {
    assert (cells + [k])[..|cells|] == cells;
  }

  /** The uploads of two walks one after the other. */
  lemma {:induction false} UploadsConcat(a: seq<Coord>, b: seq<Coord>, planes: map<Coord, Locator>,
                                         fetch: Locator -> Plane, area: nat)
    ensures Uploads(a + b, planes, fetch, area) == Uploads(a, planes, fetch, area) + Uploads(b, planes, fetch, area)
  {
    if b == [] {
      assert a + b == a;
    } else {
      UploadsConcat(a, b[..|b| - 1], planes, fetch, area);
      assert (a + b)[..|a + b| - 1] == a + b[..|b| - 1];
    }
  }

  /** One upload per destination walked, each at that destination. */
  lemma {:induction false} UploadsAt(cells: seq<Coord>, planes: map<Coord, Locator>, fetch: Locator -> Plane, area: nat)
    ensures |Uploads(cells, planes, fetch, area)| == |cells|
    ensures forall i | 0 <= i < |cells| :: Uploads(cells, planes, fetch, area)[i] == UploadAt(cells[i], planes, fetch, area)
  {
    if cells != [] {
      UploadsAt(cells[..|cells| - 1], planes, fetch, area);
    }
  }

  // ---------------------------------------------------------------------
  // Display range

  /** The smaller of `m` and every pixel of `p`. */
  function Floor(m: int, p: Plane): int
  {
    if p == [] then m else Min(Floor(m, p[..|p| - 1]), p[|p| - 1])
  }

  /** The larger of `m` and every pixel of `p`. */
  function Ceiling(m: int, p: Plane): int
  {
    if p == [] then m else Max(Ceiling(m, p[..|p| - 1]), p[|p| - 1])
  }

  /** The running minimum over uploaded planes, seeded at 0. */
  function Low(us: seq<Upload>): int
  {
    if us == [] then 0 else Floor(Low(us[..|us| - 1]), us[|us| - 1].plane)
  }

  /** The running maximum over uploaded planes, seeded at 0. */
  function High(us: seq<Upload>): int
  {
    if us == [] then 0 else Ceiling(High(us[..|us| - 1]), us[|us| - 1].plane)
  }

  lemma {:induction false} LowAppend(us: seq<Upload>, u: Upload)
    ensures Low(us + [u]) == Floor(Low(us), u.plane)
    ensures High(us + [u]) == Ceiling(High(us), u.plane)
  {
    assert (us + [u])[..|us|] == us;
  }

  /** Folding a plane into a running minimum gives at most the running
      value and at most every pixel, and is one of them. */
  lemma {:induction false} FloorIsMinimum(m: int, p: Plane)
    ensures Floor(m, p) <= m
    ensures forall j | 0 <= j < |p| :: Floor(m, p) <= p[j]
    ensures Floor(m, p) == m || exists j | 0 <= j < |p| :: Floor(m, p) == p[j]
  {
    if p != [] {
      var init := p[..|p| - 1];
      FloorIsMinimum(m, init);
      if Floor(m, p) != m && Floor(m, p) != p[|p| - 1] {
        var j :| 0 <= j < |init| && Floor(m, init) == init[j];
        assert Floor(m, p) == p[j];
      }
    }
  }

  /** Folding a plane into a running maximum gives at least the running
      value and at least every pixel, and is one of them. */
  lemma {:induction false} CeilingIsMaximum(m: int, p: Plane)
    ensures m <= Ceiling(m, p)
    ensures forall j | 0 <= j < |p| :: p[j] <= Ceiling(m, p)
    ensures Ceiling(m, p) == m || exists j | 0 <= j < |p| :: Ceiling(m, p) == p[j]
  {
    if p != [] {
      var init := p[..|p| - 1];
      CeilingIsMaximum(m, init);
      if Ceiling(m, p) != m && Ceiling(m, p) != p[|p| - 1] {
        var j :| 0 <= j < |init| && Ceiling(m, init) == init[j];
        assert Ceiling(m, p) == p[j];
      }
    }
  }

  /** The running minimum seeded at 0 is at most 0 and at most every pixel
      uploaded, and it is 0 or one of those pixels. */
  lemma {:induction false} LowIsMinimum(us: seq<Upload>)
    ensures Low(us) <= 0
    ensures forall i, j | 0 <= i < |us| && 0 <= j < |us[i].plane| :: Low(us) <= us[i].plane[j]
    ensures Low(us) == 0 || exists i, j | 0 <= i < |us| && 0 <= j < |us[i].plane| :: Low(us) == us[i].plane[j]
  {
    if us != [] {
      var init := us[..|us| - 1];
      var last := us[|us| - 1];
      LowIsMinimum(init);
      FloorIsMinimum(Low(init), last.plane);
      forall i, j | 0 <= i < |us| && 0 <= j < |us[i].plane| ensures Low(us) <= us[i].plane[j] {
        if i < |init| {
          assert us[i] == init[i];
        }
      }
      if Low(us) != 0 {
        if Low(us) == Low(init) {
          var i, j :| 0 <= i < |init| && 0 <= j < |init[i].plane| && Low(init) == init[i].plane[j];
          assert us[i] == init[i];
        } else {
          var j :| 0 <= j < |last.plane| && Low(us) == last.plane[j];
          assert us[|us| - 1] == last;
        }
      }
    }
  }

  /** The running maximum seeded at 0 is at least 0 and at least every pixel
      uploaded, and it is 0 or one of those pixels. */
  lemma {:induction false} HighIsMaximum(us: seq<Upload>)
    ensures 0 <= High(us)
    ensures forall i, j | 0 <= i < |us| && 0 <= j < |us[i].plane| :: us[i].plane[j] <= High(us)
    ensures High(us) == 0 || exists i, j | 0 <= i < |us| && 0 <= j < |us[i].plane| :: High(us) == us[i].plane[j]
  {
    if us != [] {
      var init := us[..|us| - 1];
      var last := us[|us| - 1];
      HighIsMaximum(init);
      CeilingIsMaximum(High(init), last.plane);
      forall i, j | 0 <= i < |us| && 0 <= j < |us[i].plane| ensures us[i].plane[j] <= High(us) {
        if i < |init| {
          assert us[i] == init[i];
        }
      }
      if High(us) != 0 {
        if High(us) == High(init) {
          var i, j :| 0 <= i < |init| && 0 <= j < |init[i].plane| && High(init) == init[i].plane[j];
          assert us[i] == init[i];
        } else {
          var j :| 0 <= j < |last.plane| && High(us) == last.plane[j];
          assert us[|us| - 1] == last;
        }
      }
    }
  }

  // ---------------------------------------------------------------------
  // Pixel sizes observed while fetching

  /** A physical pixel size: an opaque value and its unit. */
  type PhysicalSize = Length<real, string>

  /** What the script reads of a source image's pixels. */
  datatype Pixels = Pixels(sizeX: nat, sizeY: nat, ext: Extents,
                           physX: Option<PhysicalSize>, physY: Option<PhysicalSize>)

  /** The pixels of the source image of each assigned destination of
      `cells`, in walk order. */
  function Recorded(cells: seq<Coord>, planes: map<Coord, Locator>, pixels: nat -> Pixels): seq<Pixels>
  {
    if cells == [] then []
    else
      var k := cells[|cells| - 1];
      Recorded(cells[..|cells| - 1], planes, pixels) + if k in planes then [pixels(planes[k].image)] else []
  }

  function SizesX(ps: seq<Pixels>): (xs: seq<Option<PhysicalSize>>)
    ensures |xs| == |ps| && forall i | 0 <= i < |ps| :: xs[i] == ps[i].physX
  {
    seq(|ps|, i requires 0 <= i < |ps| => ps[i].physX)
  }

  function SizesY(ps: seq<Pixels>): (ys: seq<Option<PhysicalSize>>)
    ensures |ys| == |ps| && forall i | 0 <= i < |ps| :: ys[i] == ps[i].physY
  {
    seq(|ps|, i requires 0 <= i < |ps| => ps[i].physY)
  }

  lemma {:induction false} RecordedAppend(cells: seq<Coord>, k: Coord, planes: map<Coord, Locator>, pixels: nat -> Pixels)
    ensures Recorded(cells + [k], planes, pixels)
         == Recorded(cells, planes, pixels) + if k in planes then [pixels(planes[k].image)] else []
  {
    assert (cells + [k])[..|cells|] == cells;
  }

  // ---------------------------------------------------------------------
  // The walk over one channel

  /** What the walk carries along: the channel's running minimum and
      maximum, and the pixels of every source fetched so far (whose X and Y
      physical sizes are the two lists of noted sizes). */
  datatype Tally = Tally(low: int, high: int, seen: seq<Pixels>)

  /** The tally after visiting destination `k`. */
  function Visit(tally: Tally, k: Coord, planes: map<Coord, Locator>, fetch: Locator -> Plane,
                 pixels: nat -> Pixels, area: nat): Tally
  {
    var plane := PlaneAt(k, planes, fetch, area);
    Tally(Floor(tally.low, plane), Ceiling(tally.high, plane),
          tally.seen + if k in planes then [pixels(planes[k].image)] else [])
  }

  /** The tally after visiting `cells` in order. */
  function Tallied(start: Tally, cells: seq<Coord>, planes: map<Coord, Locator>, fetch: Locator -> Plane,
                   pixels: nat -> Pixels, area: nat): Tally
  {
    if cells == [] then start
    else Visit(Tallied(start, cells[..|cells| - 1], planes, fetch, pixels, area), cells[|cells| - 1],
               planes, fetch, pixels, area)
  }

  /** Visiting one more destination. */
  lemma {:induction false} TalliedAppend(start: Tally, cells: seq<Coord>, k: Coord, planes: map<Coord, Locator>,
                      fetch: Locator -> Plane, pixels: nat -> Pixels, area: nat)
    ensures Tallied(start, cells + [k], planes, fetch, pixels, area)
         == Visit(Tallied(start, cells, planes, fetch, pixels, area), k, planes, fetch, pixels, area)
  {
    assert (cells + [k])[..|cells|] == cells;
  }

  /** Fetches the plane assigned to `k`, or makes a zero plane, notes the
      source image's pixel sizes, uploads the plane and folds it into the
      running minimum and maximum. */
  method VisitPlane(store: PixelStore, k: Coord, planes: map<Coord, Locator>, fetch: Locator -> Plane,
                    pixels: nat -> Pixels, area: nat, tally: Tally)
    returns (next: Tally)
    modifies store
    ensures store.log == old(store.log) + [UploadAt(k, planes, fetch, area)]
    ensures next == Visit(tally, k, planes, fetch, pixels, area)
  {
    var plane;
    var seen := tally.seen;
    if k in planes {
      var source := planes[k];
      plane := fetch(source);
      seen := seen + [pixels(source.image)];
    } else {
      plane := Zeros(area);
    }
    store.UploadPlane(plane, k.z, k.c, k.t);
    next := Tally(Floor(tally.low, plane), Ceiling(tally.high, plane), seen);
  }

  /** Tallying two walks one after the other. */
  lemma {:induction false} TalliedConcat(start: Tally, a: seq<Coord>, b: seq<Coord>, planes: map<Coord, Locator>,
                                         fetch: Locator -> Plane, pixels: nat -> Pixels, area: nat)
    ensures Tallied(start, a + b, planes, fetch, pixels, area)
         == Tallied(Tallied(start, a, planes, fetch, pixels, area), b, planes, fetch, pixels, area)
  {
    if b == [] {
      assert a + b == a;
    } else {
      var init := b[..|b| - 1];
      TalliedConcat(start, a, init, planes, fetch, pixels, area);
      assert (a + b)[..|a + b| - 1] == a + init;
    }
  }

  /** Uploads the planes of channel `c` at Z index `z`, T ascending. */
  method UploadRow(store: PixelStore, c: nat, z: nat, st: nat, planes: map<Coord, Locator>,
                   fetch: Locator -> Plane, pixels: nat -> Pixels, area: nat, start: Tally)
    returns (tally: Tally)
    modifies store
    ensures store.log == old(store.log) + Uploads(Row(c, z, st), planes, fetch, area)
    ensures tally == Tallied(start, Row(c, z, st), planes, fetch, pixels, area)
  {
    tally := start;
    for t := 0 to st
      invariant store.log == old(store.log) + Uploads(Row(c, z, t), planes, fetch, area)
      invariant tally == Tallied(start, Row(c, z, t), planes, fetch, pixels, area)
    {
      var key := Coord(z, c, t);
      tally := VisitPlane(store, key, planes, fetch, pixels, area, tally);
      UploadsAppend(Row(c, z, t), key, planes, fetch, area);
      TalliedAppend(start, Row(c, z, t), key, planes, fetch, pixels, area);
    }
  }

  /** A channel's walk over one more Z index: its uploads and its tally. */
  lemma {:induction false} BlockNext(c: nat, z: nat, st: nat, planes: map<Coord, Locator>, fetch: Locator -> Plane,
                  pixels: nat -> Pixels, area: nat, start: Tally)
    ensures Uploads(Block(c, z + 1, st), planes, fetch, area)
         == Uploads(Block(c, z, st), planes, fetch, area) + Uploads(Row(c, z, st), planes, fetch, area)
    ensures Tallied(start, Block(c, z + 1, st), planes, fetch, pixels, area)
         == Tallied(Tallied(start, Block(c, z, st), planes, fetch, pixels, area), Row(c, z, st), planes, fetch, pixels, area)
  {
    UploadsConcat(Block(c, z, st), Row(c, z, st), planes, fetch, area);
    TalliedConcat(start, Block(c, z, st), Row(c, z, st), planes, fetch, pixels, area);
  }

  lemma {:induction false} AppendAssociates(a: seq<Upload>, b: seq<Upload>, c: seq<Upload>)
    ensures a + b + c == a + (b + c)
  {
  }

  /** Uploads every plane of channel `c`, Z outer and T inner, starting the
      running minimum and maximum from 0. */
  method UploadChannel(store: PixelStore, c: nat, sz: nat, st: nat, planes: map<Coord, Locator>,
                       fetch: Locator -> Plane, pixels: nat -> Pixels, area: nat,
                       seen: seq<Pixels>)
    returns (tally: Tally)
    modifies store
    ensures store.log == old(store.log) + Uploads(Block(c, sz, st), planes, fetch, area)
    ensures tally == Tallied(Tally(0, 0, seen), Block(c, sz, st), planes, fetch, pixels, area)
  {
    tally := Tally(0, 0, seen);
    for z := 0 to sz
      invariant store.log == old(store.log) + Uploads(Block(c, z, st), planes, fetch, area)
      invariant tally == Tallied(Tally(0, 0, seen), Block(c, z, st), planes, fetch, pixels, area)
    {
      tally := UploadRow(store, c, z, st, planes, fetch, pixels, area, tally);
      AppendAssociates(old(store.log), Uploads(Block(c, z, st), planes, fetch, area), Uploads(Row(c, z, st), planes, fetch, area));
      BlockNext(c, z, st, planes, fetch, pixels, area, Tally(0, 0, seen));
    }
  }

  /** The low and high of a tally started from 0 are the running minimum
      and maximum of the uploads. */
  lemma {:induction false} TallyRange(cells: seq<Coord>, planes: map<Coord, Locator>, fetch: Locator -> Plane,
                                      pixels: nat -> Pixels, area: nat,
                                      seen: seq<Pixels>)
    ensures Tallied(Tally(0, 0, seen), cells, planes, fetch, pixels, area).low == Low(Uploads(cells, planes, fetch, area))
    ensures Tallied(Tally(0, 0, seen), cells, planes, fetch, pixels, area).high == High(Uploads(cells, planes, fetch, area))
  {
    if cells != [] {
      var init := cells[..|cells| - 1];
      var k := cells[|cells| - 1];
      TallyRange(init, planes, fetch, pixels, area, seen);
      LowAppend(Uploads(init, planes, fetch, area), UploadAt(k, planes, fetch, area));
    }
  }

  /** The pixels a tally has seen are those it started with followed by
      those of every fetched source. */
  lemma {:induction false} TallySizes(start: Tally, cells: seq<Coord>, planes: map<Coord, Locator>, fetch: Locator -> Plane,
                                      pixels: nat -> Pixels, area: nat)
    ensures Tallied(start, cells, planes, fetch, pixels, area).seen == start.seen + Recorded(cells, planes, pixels)
  {
    if cells != [] {
      var init := cells[..|cells| - 1];
      var k := cells[|cells| - 1];
      TallySizes(start, init, planes, fetch, pixels, area);
    }
  }

  /** A channel's tally started from 0 is the running minimum and maximum of
      its uploads, with the pixels of its fetched sources appended. */
  lemma {:induction false} TallyMeaning(cells: seq<Coord>, planes: map<Coord, Locator>, fetch: Locator -> Plane,
                     pixels: nat -> Pixels, area: nat,
                     seen: seq<Pixels>)
    ensures Tallied(Tally(0, 0, seen), cells, planes, fetch, pixels, area)
         == Tally(Low(Uploads(cells, planes, fetch, area)), High(Uploads(cells, planes, fetch, area)),
                  seen + Recorded(cells, planes, pixels))
  {
    TallyRange(cells, planes, fetch, pixels, area, seen);
    TallySizes(Tally(0, 0, seen), cells, planes, fetch, pixels, area);
  }

  /** The pixel sizes noted over two walks one after the other. */
  lemma {:induction false} RecordedConcat(a: seq<Coord>, b: seq<Coord>, planes: map<Coord, Locator>, pixels: nat -> Pixels)
    ensures Recorded(a + b, planes, pixels) == Recorded(a, planes, pixels) + Recorded(b, planes, pixels)
  {
    if b == [] {
      assert a + b == a;
    } else {
      RecordedConcat(a, b[..|b| - 1], planes, pixels);
      assert (a + b)[..|a + b| - 1] == a + b[..|b| - 1];
    }
  }

  // ---------------------------------------------------------------------
  // The walk over every channel

  /** The display settings given to one channel: its range and its colour. */
  datatype Setting<C> = Setting(low: int, high: int, colour: C)

  /** The colour of channel `c`: the one chosen for it, else white. */
  function ColourFor<C>(c: nat, colourMap: map<nat, C>, white: C): C
  {
    if c in colourMap then colourMap[c] else white
  }

  /** The settings of channel `c`: the running minimum and maximum of its
      uploads, seeded at 0, and its colour. */
  function SettingOf<C>(c: nat, sz: nat, st: nat, planes: map<Coord, Locator>, fetch: Locator -> Plane,
                        area: nat, colourMap: map<nat, C>, white: C): Setting<C>
  {
    var us := Uploads(Block(c, sz, st), planes, fetch, area);
    Setting(Low(us), High(us), ColourFor(c, colourMap, white))
  }

  /** The settings of the first `nc` channels, the `c`-th for channel `c`. */
  function Settings<C>(nc: nat, sz: nat, st: nat, planes: map<Coord, Locator>, fetch: Locator -> Plane,
                       area: nat, colourMap: map<nat, C>, white: C): seq<Setting<C>>
  {
    seq(nc, c requires 0 <= c => SettingOf(c, sz, st, planes, fetch, area, colourMap, white))
  }

  /** The settings of one more channel: those before it, then its own. */
  lemma {:induction false} SettingsNext<C>(c: nat, sz: nat, st: nat, planes: map<Coord, Locator>, fetch: Locator -> Plane,
                                           area: nat, colourMap: map<nat, C>, white: C)
    ensures Settings(c + 1, sz, st, planes, fetch, area, colourMap, white)
         == Settings(c, sz, st, planes, fetch, area, colourMap, white)
            + [SettingOf(c, sz, st, planes, fetch, area, colourMap, white)]
  {
    var prior := Settings(c, sz, st, planes, fetch, area, colourMap, white);
    var next := Settings(c + 1, sz, st, planes, fetch, area, colourMap, white);
    var last := SettingOf(c, sz, st, planes, fetch, area, colourMap, white);
    forall i | 0 <= i < c + 1
      ensures next[i] == (prior + [last])[i]
    {
      if i < c {
        assert (prior + [last])[i] == prior[i];
      }
    }
  }

  /** The whole walk over one more channel: its uploads and its sources. */
  lemma {:induction false} OrderNext(c: nat, sz: nat, st: nat, planes: map<Coord, Locator>, fetch: Locator -> Plane,
                  pixels: nat -> Pixels, area: nat)
    ensures Uploads(Order(c + 1, sz, st), planes, fetch, area)
         == Uploads(Order(c, sz, st), planes, fetch, area) + Uploads(Block(c, sz, st), planes, fetch, area)
    ensures Recorded(Order(c + 1, sz, st), planes, pixels)
         == Recorded(Order(c, sz, st), planes, pixels) + Recorded(Block(c, sz, st), planes, pixels)
  {
    UploadsConcat(Order(c, sz, st), Block(c, sz, st), planes, fetch, area);
    RecordedConcat(Order(c, sz, st), Block(c, sz, st), planes, pixels);
  }

  /** Uploads the planes of channel `c` and gives the channel its range
      and colour; the pixels of its fetched sources are appended. */
  method SetUpChannel<C>(store: PixelStore, c: nat, sz: nat, st: nat, planes: map<Coord, Locator>,
                         fetch: Locator -> Plane, pixels: nat -> Pixels, area: nat,
                         colourMap: map<nat, C>, white: C,
                         seen: seq<Pixels>)
    returns (setting: Setting<C>, seen': seq<Pixels>)
    modifies store
    ensures store.log == old(store.log) + Uploads(Block(c, sz, st), planes, fetch, area)
    ensures setting == SettingOf(c, sz, st, planes, fetch, area, colourMap, white)
    ensures seen' == seen + Recorded(Block(c, sz, st), planes, pixels)
  {
    var tally := UploadChannel(store, c, sz, st, planes, fetch, pixels, area, seen);
    TallyMeaning(Block(c, sz, st), planes, fetch, pixels, area, seen);
    var colour := white;
    if c in colourMap {
      colour := colourMap[c];
    }
    setting := Setting(tally.low, tally.high, colour);
    seen' := tally.seen;
  }

  /** Uploads every plane of the combined image, channel by channel, and
      gives each channel its range and colour; returns the settings and the
      pixels of every fetched source, in walk order. */
  method UploadAll<C>(store: PixelStore, sc: nat, sz: nat, st: nat, planes: map<Coord, Locator>,
                      fetch: Locator -> Plane, pixels: nat -> Pixels, area: nat,
                      colourMap: map<nat, C>, white: C)
    returns (settings: seq<Setting<C>>, seen: seq<Pixels>)
    modifies store
    ensures store.log == old(store.log) + Uploads(Order(sc, sz, st), planes, fetch, area)
    ensures settings == Settings(sc, sz, st, planes, fetch, area, colourMap, white)
    ensures seen == Recorded(Order(sc, sz, st), planes, pixels)
  {
    settings, seen := [], [];
    for c := 0 to sc
      invariant store.log == old(store.log) + Uploads(Order(c, sz, st), planes, fetch, area)
      invariant settings == Settings(c, sz, st, planes, fetch, area, colourMap, white)
      invariant seen == Recorded(Order(c, sz, st), planes, pixels)
    {
      var setting;
      setting, seen := SetUpChannel(store, c, sz, st, planes, fetch, pixels, area, colourMap, white, seen);
      AppendAssociates(old(store.log), Uploads(Order(c, sz, st), planes, fetch, area), Uploads(Block(c, sz, st), planes, fetch, area));
      OrderNext(c, sz, st, planes, fetch, pixels, area);
      SettingsNext(c, sz, st, planes, fetch, area, colourMap, white);
      settings := settings + [setting];
    }
  }

  // ---------------------------------------------------------------------
  // Channel colours

  /** Builds the colour chosen for each channel: channel `c` gets the
      palette entry named by the `c`-th requested colour, when the palette
      has one; channels whose colour is unknown, or that have none, are
      left out. */
  method BuildColourMap<C>(colours: Option<seq<string>>, palette: map<string, C>) returns (m: map<nat, C>)
    ensures forall c: nat :: c in m <==> colours.Some? && c < |colours.value| && colours.value[c] in palette
    ensures forall c: nat | c in m :: m[c] == palette[colours.value[c]]
  {
    m := map[];
    if colours.Some? {
      var cs := colours.value;
      for c := 0 to |cs|
        invariant forall d: nat :: d in m <==> d < c && cs[d] in palette
        invariant forall d: nat | d in m :: m[d] == palette[cs[d]]
      {
        if cs[c] in palette {
          m := m[c := palette[cs[c]]];
        }
      }
    }
  }

  // ---------------------------------------------------------------------
  // Channel names

  /** The channel names after the user's list replaces the leading ones:
      the user's name below its length, the found name beyond it. */
  function Overridden(channels: seq<string>, names: seq<string>): (r: seq<string>)
    ensures |r| == Max(|channels|, |names|)
    ensures forall i | 0 <= i < |r| :: r[i] == if i < |names| then names[i] else channels[i]
  {
    if |names| >= |channels| then names else names + channels[|names|..]
  }

  /** The name table after the user's names are written over it. */
  function Override(table: map<nat, string>, names: seq<string>): (r: map<nat, string>)
  {
    map c: nat | c in table.Keys + Below(|names|) :: if c < |names| then names[c] else table[c]
  }

  /** Writes the user's names over the table, index by index. */
  method OverrideNames(table: map<nat, string>, names: seq<string>) returns (r: map<nat, string>)
    ensures r == Override(table, names)
  {
    r := table;
    for c := 0 to |names|
      invariant forall d: nat :: d in r <==> d in table || d < c
      invariant forall d: nat | d in r :: r[d] == if d < c then names[d] else table[d]
    {
      r := r[c := names[c]];
    }
  }

  /** Writing the user's names over the table of found channels gives the
      table of the overridden list. */
  lemma {:induction false} OverrideTable(channels: seq<string>, names: seq<string>)
    ensures Override(ChannelTable(channels), names) == ChannelTable(Overridden(channels, names))
  {
    var o := Override(ChannelTable(channels), names);
    var t := ChannelTable(Overridden(channels, names));
    forall c: nat
      ensures c in o <==> c in t
      ensures c in o ==> o[c] == t[c]
    {
    }
  }

  /** The names given to the new image's channels: walking its `count`
      channels in order, each takes the name at its index, stopping at the
      table's size. */
  method RenameChannels(table: map<nat, string>, count: nat) returns (labels: seq<string>)
    requires forall c: nat :: c in table <==> c < |table|
    ensures |labels| == Min(count, |table|)
    ensures forall i | 0 <= i < |labels| :: labels[i] == table[i]
  {
    labels := [];
    var i := 0;
    while i < count
      invariant i <= count && i <= |table|
      invariant |labels| == i
      invariant forall j | 0 <= j < i :: labels[j] == table[j]
    {
      if i >= |table| {
        break;
      }
      labels := labels + [table[i]];
      i := i + 1;
    }
  }

  /** The channel table built from a list has one entry per name. */
  lemma {:induction false} TableSize(channels: seq<string>)
    ensures |ChannelTable(channels)| == |channels|
  {
    var t := ChannelTable(channels);
    assert t.Keys == Below(|channels|);
    BelowSize(|channels|);
  }

  lemma {:induction false} BelowSize(n: nat)
    ensures |Below(n)| == n
  {
    if n > 0 {
      BelowSize(n - 1);
      AddFresh(Below(n - 1), n - 1, Below(n));
    }
  }

  /** Adding a new element to a set grows it by one. */
  lemma {:induction false} AddFresh(s: set<nat>, x: nat, r: set<nat>)
    requires x !in s && r == s + {x}
    ensures |r| == |s| + 1
  {
    assert r - {x} == s;
  }

  /** With the table of a list, renaming names the first `count` channels
      after the list's first entries. */
  lemma {:induction false} RenamedFromList(channels: seq<string>, count: nat, labels: seq<string>)
    requires |labels| == Min(count, |ChannelTable(channels)|)
    requires forall i | 0 <= i < |labels| :: i in ChannelTable(channels) && labels[i] == ChannelTable(channels)[i]
    ensures labels == channels[..Min(count, |channels|)]
  {
    TableSize(channels);
  }

  // ---------------------------------------------------------------------
  // The name filter

  /** `part` occurs in `s` starting at index `i`. */
  predicate OccursAt(s: string, part: string, i: nat)
  {
    i + |part| <= |s| && s[i..i + |part|] == part
  }

  /** Whether `part` occurs anywhere in `s`, trying each start in turn. */
  function Contains(s: string, part: string): bool
    decreases |s|
  {
    if |part| > |s| then false
    else if s[..|part|] == part then true
    else Contains(s[1..], part)
  }

  /** The search finds `part` exactly when it occurs at some index. */
  lemma {:induction false} ContainsIff(s: string, part: string)
    ensures Contains(s, part) <==> exists i: nat :: OccursAt(s, part, i)
    decreases |s|
  {
    if |part| > |s| {
    } else if s[..|part|] == part {
      assert OccursAt(s, part, 0);
    } else {
      ContainsIff(s[1..], part);
      if Contains(s, part) {
        var i: nat :| OccursAt(s[1..], part, i);
        assert s[i + 1..i + 1 + |part|] == s[1..][i..i + |part|];
        assert OccursAt(s, part, i + 1);
      } else {
        forall i: nat | OccursAt(s, part, i)
          ensures false
        {
          assert i != 0;
          assert s[1..][i - 1..i - 1 + |part|] == s[i..i + |part|];
          assert OccursAt(s[1..], part, i - 1);
        }
      }
    }
  }

  /** The ids, in order, of the images whose name contains `part`. */
  function Filtered(ids: seq<nat>, names: map<nat, string>, part: string): seq<nat>
    requires forall i | 0 <= i < |ids| :: ids[i] in names
  {
    if ids == [] then []
    else
      var last := ids[|ids| - 1];
      Filtered(ids[..|ids| - 1], names, part) + if Contains(names[last], part) then [last] else []
  }

  /** Filtering two lists one after the other: the filter keeps the order. */
  lemma {:induction false} FilteredConcat(a: seq<nat>, b: seq<nat>, names: map<nat, string>, part: string)
    requires forall i | 0 <= i < |a| :: a[i] in names
    requires forall i | 0 <= i < |b| :: b[i] in names
    ensures Filtered(a + b, names, part) == Filtered(a, names, part) + Filtered(b, names, part)
  {
    if b == [] {
      assert a + b == a;
    } else {
      FilteredConcat(a, b[..|b| - 1], names, part);
      assert (a + b)[..|a + b| - 1] == a + b[..|b| - 1];
    }
  }

  /** An id is kept exactly when it is listed and its name contains `part`. */
  lemma {:induction false} FilteredMembers(ids: seq<nat>, names: map<nat, string>, part: string, x: nat)
    requires forall i | 0 <= i < |ids| :: ids[i] in names
    ensures x in Filtered(ids, names, part) <==> x in ids && Contains(names[x], part)
  {
    if ids != [] {
      var init := ids[..|ids| - 1];
      FilteredMembers(init, names, part, x);
      assert ids == init + [ids[|ids| - 1]];
    }
  }

  /** The ids the image is built from: those whose name contains a
      non-empty filter, else all of them. */
  function Selection(ids: seq<nat>, names: map<nat, string>, filter: Option<string>): seq<nat>
    requires forall i | 0 <= i < |ids| :: ids[i] in names
  {
    if filter.Some? && |filter.value| > 0 then Filtered(ids, names, filter.value) else ids
  }

  /** The ids listed, each with a name, keep their names once filtered. */
  lemma {:induction false} SelectionNamed(ids: seq<nat>, names: map<nat, string>, filter: Option<string>)
    requires forall i | 0 <= i < |ids| :: ids[i] in names
    ensures forall i | 0 <= i < |Selection(ids, names, filter)| :: Selection(ids, names, filter)[i] in names
  {
    if filter.Some? && |filter.value| > 0 {
      var sel := Selection(ids, names, filter);
      forall i | 0 <= i < |sel|
        ensures sel[i] in names
      {
        FilteredMembers(ids, names, filter.value, sel[i]);
      }
    }
  }

  // ---------------------------------------------------------------------
  // The combined image

  /** What the user asks for: the name patterns, the channel names, and the
      name filter (absent, or a string that may be empty). */
  datatype Request = Request(patterns: Patterns, channelNames: Option<seq<string>>, filter: Option<string>)

  /** The new image as created: its name, the ids it was built from, its
      sizes, the source of each plane, each channel's display settings, the
      channel names and the physical pixel sizes set on it. The channel
      count is the number of settings. */
  datatype Combined<C> = Combined(name: string, sources: seq<nat>, sizeX: nat, sizeY: nat,
                                  sizeZ: nat, sizeT: nat, planes: map<Coord, Locator>,
                                  settings: seq<Setting<C>>, labels: seq<string>,
                                  physX: Option<PhysicalSize>, physY: Option<PhysicalSize>)

  /** The three ways a call ends: nothing listed, nothing left after the
      filter (where the script fails on an empty list), or a new image. */
  datatype Outcome<C> = NoImages | NoMatch | Made(image: Combined<C>)

  /** The pixel count of a plane, the size of a zero plane. */
  function Area(sizeX: nat, sizeY: nat): nat
  {
    sizeX * sizeY
  }

  /** The name of the new image: the filter string when one is given, even
      an empty one, else "combinedImage". */
  function ImageName(filter: Option<string>): string
  {
    if filter.Some? then filter.value else "combinedImage"
  }

  /** The channel names the user must give: those of a multi-channel first
      image cannot be read from names. */
  predicate NamesGiven(req: Request, ids: seq<nat>, names: map<nat, string>, pixels: nat -> Pixels)
    requires forall i | 0 <= i < |ids| :: ids[i] in names
  {
    var sel := Selection(ids, names, req.filter);
    ids != [] && sel != [] && pixels(sel[0]).ext.c != 1 ==> req.channelNames.Some?
  }

  /** The channel names after the user's list, when given, replaces the
      leading ones. */
  function Named(channels: seq<string>, given: Option<seq<string>>): seq<string>
  {
    if given.Some? then Overridden(channels, given.value) else channels
  }

  /** The image built from the selected ids once their planes are
      assigned: `first` is the first selected image's pixels, which set the
      X and Y sizes; `channels` are the channel names found, whose count is
      the channel count and the first of which the user's names replace. */
  function Build<C>(name: string, sel: seq<nat>, first: Pixels, a: Assigned, channels: seq<string>,
                    given: Option<seq<string>>, pixels: nat -> Pixels, fetch: Locator -> Plane,
                    colourMap: map<nat, C>, white: C): Combined<C>
  {
    var sc := |channels|;
    var area := Area(first.sizeX, first.sizeY);
    var seen := Recorded(Order(sc, a.sizeZ, a.sizeT), a.planes, pixels);
    Combined(name, sel, first.sizeX, first.sizeY, a.sizeZ, a.sizeT, a.planes,
             Settings(sc, a.sizeZ, a.sizeT, a.planes, fetch, area, colourMap, white),
             Named(channels, given)[..sc], Agreed(SizesX(seen)), Agreed(SizesY(seen)))
  }

  /** What combining the listed images gives. */
  function Make<C>(req: Request, ids: seq<nat>, names: map<nat, string>, pixels: nat -> Pixels,
                   fetch: Locator -> Plane, colourMap: map<nat, C>, white: C): Outcome<C>
    requires forall i | 0 <= i < |ids| :: ids[i] in names
    requires NamesGiven(req, ids, names, pixels)
  {
    if ids == [] then NoImages
    else
      var sel := Selection(ids, names, req.filter);
      if sel == [] then NoMatch
      else
        SelectionNamed(ids, names, req.filter);
        var first := pixels(sel[0]);
        var images := Sources(sel, names);
        Made(Build(ImageName(req.filter), sel, first, Assign(images, req.patterns, first.ext, req.channelNames),
                   ScanOf(images, req.patterns, first.ext, req.channelNames).channels, req.channelNames,
                   pixels, fetch, colourMap, white))
  }

  /** Counts the channels found and names the new image's channels: the
      count is the number of channels found, and channel `i` is named by
      the user's `i`-th name when there is one, else by the `i`-th name
      found. */
  method NameChannels(found: map<nat, string>, given: Option<seq<string>>, ghost channels: seq<string>)
    returns (count: nat, labels: seq<string>)
    requires found == ChannelTable(channels)
    ensures count == |channels|
    ensures labels == Named(channels, given)[..count]
  {
    count := |found|;
    TableSize(channels);
    ghost var named := Named(channels, given);
    var table := found;
    if given.Some? {
      table := OverrideNames(table, given.value);
      OverrideTable(channels, given.value);
    }
    assert table == ChannelTable(named);
    TableSize(named);
    labels := RenameChannels(table, count);
    RenamedFromList(named, count, labels);
  }

  /** Builds the new image once the planes are assigned: uploads every
      plane, sets each channel's range and colour, names the channels and
      sets the pixel sizes the sources agree on. */
  method Assemble<C>(store: PixelStore, name: string, sel: seq<nat>, first: Pixels, a: Assigned,
                     ghost channels: seq<string>, given: Option<seq<string>>, pixels: nat -> Pixels,
                     fetch: Locator -> Plane, colourMap: map<nat, C>, white: C)
    returns (image: Combined<C>)
    requires a.channelNames == ChannelTable(channels)
    modifies store
    ensures image == Build(name, sel, first, a, channels, given, pixels, fetch, colourMap, white)
    ensures store.log == old(store.log)
              + Uploads(Order(|channels|, a.sizeZ, a.sizeT), a.planes, fetch, Area(first.sizeX, first.sizeY))
  {
    var sc, labels := NameChannels(a.channelNames, given, channels);
    var area := Area(first.sizeX, first.sizeY);
    var settings, seen := UploadAll(store, sc, a.sizeZ, a.sizeT, a.planes, fetch, pixels, area, colourMap, white);
    var physX := PickPixelSizes(SizesX(seen));
    var physY := PickPixelSizes(SizesY(seen));
    image := Combined(name, sel, first.sizeX, first.sizeY, a.sizeZ, a.sizeT, a.planes,
                      settings, labels, physX, physY);
  }

  /** Builds the new image from the selected ids: assigns their planes,
      then assembles the image. */
  method BuildImage<C>(store: PixelStore, req: Request, sel: seq<nat>, names: map<nat, string>,
                       pixels: nat -> Pixels, fetch: Locator -> Plane, colourMap: map<nat, C>, white: C)
    returns (image: Combined<C>)
    requires sel != [] && forall i | 0 <= i < |sel| :: sel[i] in names
    requires pixels(sel[0]).ext.c != 1 ==> req.channelNames.Some?
    modifies store
    ensures var first := pixels(sel[0]);
      var images := Sources(sel, names);
      image == Build(ImageName(req.filter), sel, first, Assign(images, req.patterns, first.ext, req.channelNames),
                     ScanOf(images, req.patterns, first.ext, req.channelNames).channels, req.channelNames,
                     pixels, fetch, colourMap, white)
    ensures store.log == old(store.log)
              + Uploads(Order(|image.settings|, image.sizeZ, image.sizeT), image.planes, fetch, Area(image.sizeX, image.sizeY))
  {
    var first := pixels(sel[0]);
    var a := AssignImages(sel, names, req.patterns, first.ext, req.channelNames);
    ghost var images := Sources(sel, names);
    ghost var channels := ScanOf(images, req.patterns, first.ext, req.channelNames).channels;
    AssignedChannels(images, req.patterns, first.ext, req.channelNames);
    image := Assemble(store, ImageName(req.filter), sel, first, a, channels, req.channelNames,
                      pixels, fetch, colourMap, white);
  }

  /** Combines the listed images into one new image, after keeping only
      those whose name contains a non-empty filter. */
  method MakeSingleImage<C>(store: PixelStore, req: Request, ids: seq<nat>, names: map<nat, string>,
                            pixels: nat -> Pixels, fetch: Locator -> Plane, colourMap: map<nat, C>, white: C)
    returns (outcome: Outcome<C>)
    requires forall i | 0 <= i < |ids| :: ids[i] in names
    requires NamesGiven(req, ids, names, pixels)
    modifies store
    ensures outcome == Make(req, ids, names, pixels, fetch, colourMap, white)
    ensures outcome.Made? ==> var m := outcome.image;
      store.log == old(store.log) + Uploads(Order(|m.settings|, m.sizeZ, m.sizeT), m.planes, fetch, Area(m.sizeX, m.sizeY))
    ensures !outcome.Made? ==> store.log == old(store.log)
  {
    if |ids| == 0 {
      return NoImages;
    }
    var sel := Selection(ids, names, req.filter);
    if |sel| == 0 {
      return NoMatch;
    }
    SelectionNamed(ids, names, req.filter);
    var image := BuildImage(store, req, sel, names, pixels, fetch, colourMap, white);
    outcome := Made(image);
  }

  // ---------------------------------------------------------------------
  // What the combined image is

  /** A channel's range covers 0 and every pixel of every plane uploaded
      for that channel, zero planes included; each end is 0 or one of those
      pixels. */
  lemma {:induction false} ChannelRange<C>(c: nat, sz: nat, st: nat, planes: map<Coord, Locator>, fetch: Locator -> Plane,
                        area: nat, colourMap: map<nat, C>, white: C, k: Coord)
    requires k.c == c && k.z < sz && k.t < st
    ensures var r := SettingOf(c, sz, st, planes, fetch, area, colourMap, white);
      && r.low <= 0 <= r.high
      && forall j | 0 <= j < |PlaneAt(k, planes, fetch, area)| :: r.low <= PlaneAt(k, planes, fetch, area)[j] <= r.high
  {
    var us := Uploads(Block(c, sz, st), planes, fetch, area);
    var i := BlockReaches(c, sz, st, k);
    UploadsAt(Block(c, sz, st), planes, fetch, area);
    assert us[i] == UploadAt(k, planes, fetch, area);
    LowIsMinimum(us);
    HighIsMaximum(us);
  }

  /** A channel's low end that is not 0 is a pixel of one of its planes. */
  lemma {:induction false} ChannelLowAttained<C>(c: nat, sz: nat, st: nat, planes: map<Coord, Locator>, fetch: Locator -> Plane,
                              area: nat, colourMap: map<nat, C>, white: C)
    returns (k: Coord, j: nat)
    ensures var r := SettingOf(c, sz, st, planes, fetch, area, colourMap, white);
      r.low != 0 ==> k.c == c && k.z < sz && k.t < st
                     && j < |PlaneAt(k, planes, fetch, area)| && PlaneAt(k, planes, fetch, area)[j] == r.low
  {
    var us := Uploads(Block(c, sz, st), planes, fetch, area);
    LowIsMinimum(us);
    if Low(us) != 0 {
      var i, j' :| 0 <= i < |us| && 0 <= j' < |us[i].plane| && Low(us) == us[i].plane[j'];
      UploadsAt(Block(c, sz, st), planes, fetch, area);
      BlockAt(c, sz, st, i);
      k, j := Block(c, sz, st)[i], j';
      assert us[i] == UploadAt(k, planes, fetch, area);
      assert us[i].plane == PlaneAt(k, planes, fetch, area);
    } else {
      k, j := Coord(0, 0, 0), 0;
    }
  }

  /** A channel's high end that is not 0 is a pixel of one of its planes. */
  lemma {:induction false} ChannelHighAttained<C>(c: nat, sz: nat, st: nat, planes: map<Coord, Locator>, fetch: Locator -> Plane,
                               area: nat, colourMap: map<nat, C>, white: C)
    returns (k: Coord, j: nat)
    ensures var r := SettingOf(c, sz, st, planes, fetch, area, colourMap, white);
      r.high != 0 ==> k.c == c && k.z < sz && k.t < st
                      && j < |PlaneAt(k, planes, fetch, area)| && PlaneAt(k, planes, fetch, area)[j] == r.high
  {
    var us := Uploads(Block(c, sz, st), planes, fetch, area);
    HighIsMaximum(us);
    if High(us) != 0 {
      var i, j' :| 0 <= i < |us| && 0 <= j' < |us[i].plane| && High(us) == us[i].plane[j'];
      UploadsAt(Block(c, sz, st), planes, fetch, area);
      BlockAt(c, sz, st, i);
      k, j := Block(c, sz, st)[i], j';
      assert us[i] == UploadAt(k, planes, fetch, area);
      assert us[i].plane == PlaneAt(k, planes, fetch, area);
    } else {
      k, j := Coord(0, 0, 0), 0;
    }
  }

  /** A call ends early exactly when nothing is listed, and finds nothing
      to combine exactly when the filter keeps no id. */
  lemma {:induction false} MakeOutcomes<C>(req: Request, ids: seq<nat>, names: map<nat, string>, pixels: nat -> Pixels,
                        fetch: Locator -> Plane, colourMap: map<nat, C>, white: C)
    requires forall i | 0 <= i < |ids| :: ids[i] in names
    requires NamesGiven(req, ids, names, pixels)
    ensures Make(req, ids, names, pixels, fetch, colourMap, white).NoImages? <==> ids == []
    ensures Make(req, ids, names, pixels, fetch, colourMap, white).NoMatch?
        <==> ids != [] && Selection(ids, names, req.filter) == []
    ensures Make(req, ids, names, pixels, fetch, colourMap, white).Made? ==>
              Make(req, ids, names, pixels, fetch, colourMap, white).image.sources == Selection(ids, names, req.filter)
              && Selection(ids, names, req.filter) != []
  {
  }

  /** The new image has one channel per channel name found; channel `c` is
      named by the user's `c`-th name when there is one, else by the name
      found, and coloured by its chosen colour, else white. */
  lemma {:induction false} BuiltChannels<C>(name: string, sel: seq<nat>, first: Pixels, a: Assigned, channels: seq<string>,
                         given: Option<seq<string>>, pixels: nat -> Pixels, fetch: Locator -> Plane,
                         colourMap: map<nat, C>, white: C)
    ensures var m := Build(name, sel, first, a, channels, given, pixels, fetch, colourMap, white);
      && |m.settings| == |channels| && |m.labels| == |channels|
      && (forall c | 0 <= c < |channels| ::
            m.labels[c] == if given.Some? && c < |given.value| then given.value[c] else channels[c])
      && forall c | 0 <= c < |channels| :: m.settings[c].colour == ColourFor(c, colourMap, white)
  {
  }

  /** Each channel's range in the new image covers 0 and every pixel of
      every plane uploaded for that channel. */
  lemma {:induction false} BuiltRange<C>(name: string, sel: seq<nat>, first: Pixels, a: Assigned, channels: seq<string>,
                      given: Option<seq<string>>, pixels: nat -> Pixels, fetch: Locator -> Plane,
                      colourMap: map<nat, C>, white: C, k: Coord)
    requires k.c < |channels| && k.z < a.sizeZ && k.t < a.sizeT
    ensures var m := Build(name, sel, first, a, channels, given, pixels, fetch, colourMap, white);
      var plane := PlaneAt(k, m.planes, fetch, Area(m.sizeX, m.sizeY));
      && k.c < |m.settings|
      && m.settings[k.c].low <= 0 <= m.settings[k.c].high
      && forall j | 0 <= j < |plane| :: m.settings[k.c].low <= plane[j] <= m.settings[k.c].high
  {
    var area := Area(first.sizeX, first.sizeY);
    ChannelRange(k.c, a.sizeZ, a.sizeT, a.planes, fetch, area, colourMap, white, k);
  }

  /** The uploads of a walk over the box: one per destination of the box
      and none elsewhere, in strictly increasing (channel, Z, T) order, each
      the assigned source plane or a zero plane. */
  lemma {:induction false} WalkUploads(sc: nat, sz: nat, st: nat, planes: map<Coord, Locator>, fetch: Locator -> Plane, area: nat)
    ensures |Uploads(Order(sc, sz, st), planes, fetch, area)| == |Order(sc, sz, st)| == sc * (sz * st)
    ensures forall i | 0 <= i < |Order(sc, sz, st)| ::
              Uploads(Order(sc, sz, st), planes, fetch, area)[i] == UploadAt(Order(sc, sz, st)[i], planes, fetch, area)
    ensures forall k: Coord :: k in Order(sc, sz, st) <==> k.c < sc && k.z < sz && k.t < st
    ensures Increasing(Order(sc, sz, st))
  {
    UploadsAt(Order(sc, sz, st), planes, fetch, area);
    OrderLength(sc, sz, st);
    forall k: Coord
      ensures k in Order(sc, sz, st) <==> k.c < sc && k.z < sz && k.t < st
    {
      OrderMember(sc, sz, st, k);
    }
    OrderIncreasing(sc, sz, st);
  }
}
