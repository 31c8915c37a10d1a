/** `assign_images_by_regex`: each source image's name gives it a destination
    (z, c, t); the images' planes are laid out in a map from destination
    coordinate to source plane, and the Z and T axes are shifted to start at 0. */
module Assignment {
  import opened Common

  /** A configured name pattern: switched off, or a search yielding the named
      group's text when the name matches. */
  datatype Pattern<T> = Disabled | Enabled(search: string -> Option<T>)

  function Search<T>(p: Pattern<T>, name: string): Option<T>
  {
    match p
    case Disabled => None
    case Enabled(f) => f(name)
  }

  /** The channel, Z and time patterns; Z and time groups capture digits only. */
  datatype Patterns = Patterns(channel: Pattern<string>, z: Pattern<Digits>, time: Pattern<Digits>)

  /** Native Z, C and T sizes of the source images (those of the first image). */
  datatype Extents = Extents(z: nat, c: nat, t: nat)

  /** A source image: its id and its name. */
  datatype Image = Image(id: nat, name: string)

  /** The Z or T index a name gives: its token's value, or 0 when the pattern
      is disabled or does not match. */
  function AxisIndex(p: Pattern<Digits>, name: string): (index: nat)
    ensures Search(p, name).None? ==> index == 0
    ensures Search(p, name).Some? ==> index == DecimalValue(Search(p, name).value)
  {
    match Search(p, name)
    case None => 0
    case Some(token) => DecimalValue(token)
  }

  /** The channel label a name gives: its token, or "0" when the pattern is
      disabled or does not match. */
  function ChannelLabel(p: Pattern<string>, name: string): (token: string)
    ensures Search(p, name).None? ==> token == "0"
    ensures Search(p, name).Some? ==> token == Search(p, name).value
  {
    match Search(p, name)
    case None => "0"
    case Some(found) => found
  }

  // ---------------------------------------------------------------------
  // One Z or T axis: running size and running start (minimum index)

  datatype AxisState = AxisState(size: nat, start: Option<nat>)

  /** Offset of an axis: its start, or 0 when nothing was scanned. */
  function Offset(a: AxisState): nat
  {
    if a.start.None? then 0 else a.start.value
  }

  /** The update the scan of one image makes to an axis of native size `native`
      whose index in that image's name is `index`. */
  function AxisStep(a: AxisState, native: nat, index: nat): AxisState
  {
    if native == 1 then
      AxisState(Max(a.size, index + 1), Some(if a.start.None? then index else Min(a.start.value, index)))
    else
      AxisState(native, Some(0))
  }

  /** The axis after scanning images whose indices are `indices`, in order. */
  function AxisOf(native: nat, indices: seq<nat>): AxisState
  {
    if indices == [] then AxisState(native, None)
    else AxisStep(AxisOf(native, indices[..|indices| - 1]), native, indices[|indices| - 1])
  }

  /** On a single-plane axis the size is the largest index plus one (at least
      the native 1) and the start is the smallest index; on a multiplexed axis
      the size is the native size and the start is 0. */
  lemma {:induction false} AxisOfIsMaxAndMin(native: nat, indices: seq<nat>)
    ensures indices == [] ==> AxisOf(native, indices) == AxisState(native, None)
    ensures native != 1 && indices != [] ==> AxisOf(native, indices) == AxisState(native, Some(0))
    ensures native == 1 ==> var a := AxisOf(native, indices);
      && 1 <= a.size
      && (forall i :: 0 <= i < |indices| ==> indices[i] < a.size)
      && (a.size == 1 || exists i :: 0 <= i < |indices| && a.size == indices[i] + 1)
    ensures native == 1 && indices != [] ==> var a := AxisOf(native, indices);
      && a.start.Some?
      && (forall i :: 0 <= i < |indices| ==> a.start.value <= indices[i])
      && (exists i :: 0 <= i < |indices| && a.start.value == indices[i])
  {
    if indices != [] {
      var init := indices[..|indices| - 1];
      var last := indices[|indices| - 1];
      AxisOfIsMaxAndMin(native, init);
      if native == 1 {
        var a := AxisOf(native, init);
        var b := AxisOf(native, indices);
        assert forall i :: 0 <= i < |init| ==> indices[i] == init[i];
        if b.size != 1 && b.size != last + 1 {
          var i :| 0 <= i < |init| && a.size == init[i] + 1;
          assert b.size == indices[i] + 1;
        }
        if init != [] && b.start.value != last {
          var i :| 0 <= i < |init| && a.start.value == init[i];
          assert b.start.value == indices[i];
        }
      }
    }
  }

  /** The start never exceeds the size, so shifting leaves a size that is a nat. */
  lemma {:induction false} AxisStartWithinSize(native: nat, indices: seq<nat>)
    ensures Offset(AxisOf(native, indices)) <= AxisOf(native, indices).size
  {
    AxisOfIsMaxAndMin(native, indices);
    if native == 1 && indices != [] {
      var a := AxisOf(native, indices);
      var i :| 0 <= i < |indices| && a.start.value == indices[i];
    }
  }

  // ---------------------------------------------------------------------
  // Where one image's planes go

  /** One image's resolved destination: its id, the shared native extents and
      the indices its name gave on the single-plane axes. */
  datatype Placement = Placement(id: nat, ext: Extents, z: nat, c: nat, t: nat)

  /** Destination indices an axis of native size `native` covers: every local
      index when multiplexed, else the one index from the name. */
  predicate OnAxis(x: nat, native: nat, index: nat)
  {
    if native == 1 then x == index else x < native
  }

  /** Local plane index inside the source image for destination index `x`. */
  function Local(x: nat, native: nat): nat
  {
    if native == 1 then 0 else x
  }

  /** The destination `k` receives one of this image's planes. */
  predicate Hits(k: Coord, p: Placement)
  {
    OnAxis(k.z, p.ext.z, p.z) && OnAxis(k.c, p.ext.c, p.c) && OnAxis(k.t, p.ext.t, p.t)
  }

  /** The source plane of this image that lands on `k`. */
  function Source(k: Coord, p: Placement): Locator
  {
    Locator(p.id, Local(k.z, p.ext.z), Local(k.c, p.ext.c), Local(k.t, p.ext.t))
  }

  /** The indices 0 .. n-1. */
  function Below(n: nat): (r: set<nat>)
    ensures forall x :: x in r <==> 0 <= x < n
  {
    if n == 0 then {} else Below(n - 1) + {n - 1}
  }

  function AxisRange(native: nat, index: nat): set<nat>
  {
    if native == 1 then {index} else Below(native)
  }

  /** The map entries this image writes. */
  function Footprint(p: Placement): (m: map<Coord, Locator>)
    ensures forall k :: k in m <==> Hits(k, p)
    ensures forall k :: k in m ==> m[k] == Source(k, p)
  {
    var keys := set z, c, t | z in AxisRange(p.ext.z, p.z) && c in AxisRange(p.ext.c, p.c) && t in AxisRange(p.ext.t, p.t)
      :: Coord(z, c, t);
    assert forall k :: Hits(k, p) ==> k in keys by {
      forall k | Hits(k, p) ensures k in keys {
        assert k.z in AxisRange(p.ext.z, p.z) && k.c in AxisRange(p.ext.c, p.c) && k.t in AxisRange(p.ext.t, p.t);
        assert k == Coord(k.z, k.c, k.t);
      }
    }
    map k | k in keys :: Source(k, p)
  }

  /** Source plane (z, c, t) of the image has been written when it precedes
      (iz, ic, it) in the loops' z-outer, c-middle, t-inner order. */
  predicate Written(k: Coord, p: Placement, iz: nat, ic: nat, it: nat)
  {
    var s := Source(k, p);
    Hits(k, p) && (s.z < iz || (s.z == iz && (s.c < ic || (s.c == ic && s.t < it))))
  }

  /** The destination that source plane (sz, sc, st) of the image lands on. */
  function Destination(p: Placement, sz: nat, sc: nat, st: nat): Coord
  {
    Coord(if p.ext.z > 1 then sz else p.z, if p.ext.c > 1 then sc else p.c, if p.ext.t > 1 then st else p.t)
  }

  /** On one axis, the destination index of local plane `s` is determined. */
  lemma {:induction false} AxisDestination(x: nat, native: nat, index: nat, s: nat)
    requires OnAxis(x, native, index) && Local(x, native) == s && s < native
    ensures x == if native > 1 then s else index
  {
  }

  /** Writing source plane (sz, sc, st) adds exactly its destination to the
      written keys. */
  lemma {:induction false} WrittenStep(p: Placement, sz: nat, sc: nat, st: nat)
    requires sz < p.ext.z && sc < p.ext.c && st < p.ext.t
    ensures Hits(Destination(p, sz, sc, st), p)
    ensures Source(Destination(p, sz, sc, st), p) == Locator(p.id, sz, sc, st)
    ensures forall k :: Written(k, p, sz, sc, st + 1) <==> Written(k, p, sz, sc, st) || k == Destination(p, sz, sc, st)
  {
    var d := Destination(p, sz, sc, st);
    assert Hits(d, p) && Source(d, p) == Locator(p.id, sz, sc, st);
    forall k
      ensures Written(k, p, sz, sc, st + 1) <==> Written(k, p, sz, sc, st) || k == Destination(p, sz, sc, st)
    {
      WrittenStepAt(p, sz, sc, st, k);
    }
  }

  /** The written keys before and after source plane (sz, sc, st), at one key. */
  lemma {:induction false} WrittenStepAt(p: Placement, sz: nat, sc: nat, st: nat, k: Coord)
    requires sz < p.ext.z && sc < p.ext.c && st < p.ext.t
    ensures Written(k, p, sz, sc, st + 1) <==> Written(k, p, sz, sc, st) || k == Destination(p, sz, sc, st)
  {
    var d := Destination(p, sz, sc, st);
    if k == d {
      assert Hits(d, p) && Source(d, p) == Locator(p.id, sz, sc, st);
    }
    if Written(k, p, sz, sc, st + 1) && Source(k, p) == Locator(p.id, sz, sc, st) {
      AxisDestination(k.z, p.ext.z, p.z, sz);
      AxisDestination(k.c, p.ext.c, p.c, sc);
      AxisDestination(k.t, p.ext.t, p.t, st);
    }
  }

  /** The entries of the image's footprint written before (iz, ic, it). */
  function Partial(p: Placement, iz: nat, ic: nat, it: nat): (m: map<Coord, Locator>)
    ensures forall k :: k in m <==> Written(k, p, iz, ic, it)
    ensures forall k :: k in m ==> m[k] == Source(k, p)
  {
    var f := Footprint(p);
    map k | k in f && Written(k, p, iz, ic, it) :: f[k]
  }

  /** Writing source plane (sz, sc, st) to its destination extends the
      written part of the footprint by that one plane. */
  lemma {:induction false} PartialStep(planes: map<Coord, Locator>, p: Placement, sz: nat, sc: nat, st: nat)
    requires sz < p.ext.z && sc < p.ext.c && st < p.ext.t
    ensures (planes + Partial(p, sz, sc, st))[Destination(p, sz, sc, st) := Locator(p.id, sz, sc, st)]
         == planes + Partial(p, sz, sc, st + 1)
  {
    WrittenStep(p, sz, sc, st);
  }

  /** Finishing the t loop for (sz, sc) is starting source channel sc + 1. */
  lemma {:induction false} RowCarry(p: Placement, sz: nat, sc: nat)
    ensures Partial(p, sz, sc, p.ext.t) == Partial(p, sz, sc + 1, 0)
  {
  }

  /** Finishing the c loop for sz is starting source z-plane sz + 1. */
  lemma {:induction false} PlaneCarry(p: Placement, sz: nat)
    ensures Partial(p, sz, p.ext.c, 0) == Partial(p, sz + 1, 0, 0)
  {
  }

  /** Before the loops nothing is written; after them the whole footprint is. */
  lemma {:induction false} PartialEnds(p: Placement)
    ensures Partial(p, 0, 0, 0) == map[]
    ensures Partial(p, p.ext.z, 0, 0) == Footprint(p)
  {
    assert forall k :: Written(k, p, p.ext.z, 0, 0) <==> Hits(k, p);
  }

  /** The three nested loops of the scan that copy one image's planes into the
      map (z outer, c middle, t inner); a later write to a key replaces the
      earlier value. */
  method PlaceImage(planes: map<Coord, Locator>, p: Placement) returns (result: map<Coord, Locator>)
    ensures result == planes + Footprint(p)
  {
    result := planes;
    PartialEnds(p);
    for sz := 0 to p.ext.z
      invariant result == planes + Partial(p, sz, 0, 0)
    {
      for sc := 0 to p.ext.c
        invariant result == planes + Partial(p, sz, sc, 0)
      {
        for st := 0 to p.ext.t
          invariant result == planes + Partial(p, sz, sc, st)
        {
          var toZ := if p.ext.z > 1 then sz else p.z;
          var toC := if p.ext.c > 1 then sc else p.c;
          var toT := if p.ext.t > 1 then st else p.t;
          PartialStep(planes, p, sz, sc, st);
          result := result[Coord(toZ, toC, toT) := Locator(p.id, sz, sc, st)];
        }
        RowCarry(p, sz, sc);
      }
      PlaneCarry(p, sz);
    }
  }

  // ---------------------------------------------------------------------
  // The scan over all source images

  /** The running state of the scan: both axes, the channel list and the map
      from destination to source plane. */
  datatype Scan = Scan(z: AxisState, t: AxisState, channels: seq<string>, planes: map<Coord, Locator>)

  /** Index of the first occurrence of `x` in `s`, as Python's `list.index`. */
  function IndexOf(s: seq<string>, x: string): (i: nat)
    requires x in s
    ensures i < |s| && s[i] == x && forall j :: 0 <= j < i ==> s[j] != x
  {
    if s[0] == x then 0 else 1 + IndexOf(s[1..], x)
  }

  /** The channel index a label gets: its earlier index, or the next free one. */
  function ChannelIndex(channels: seq<string>, token: string): nat
  {
    if token in channels then IndexOf(channels, token) else |channels|
  }

  /** The channel list after a label is seen: appended only when new. */
  function AddChannel(channels: seq<string>, token: string): seq<string>
  {
    if token in channels then channels else channels + [token]
  }

  /** Where `img` goes given the scan state before it. */
  function PlacementOf(s: Scan, img: Image, pats: Patterns, ext: Extents): Placement
  {
    Placement(img.id, ext,
      if ext.z == 1 then AxisIndex(pats.z, img.name) else 0,
      if ext.c == 1 then ChannelIndex(s.channels, ChannelLabel(pats.channel, img.name)) else 0,
      if ext.t == 1 then AxisIndex(pats.time, img.name) else 0)
  }

  /** One iteration of the scan. A multiplexed channel axis takes the explicit
      channel names as the channel list. */
  function Step(s: Scan, img: Image, pats: Patterns, ext: Extents, channelNames: Option<seq<string>>): Scan
    requires ext.c != 1 ==> channelNames.Some?
  {
    Scan(AxisStep(s.z, ext.z, if ext.z == 1 then AxisIndex(pats.z, img.name) else 0),
         AxisStep(s.t, ext.t, if ext.t == 1 then AxisIndex(pats.time, img.name) else 0),
         if ext.c == 1 then AddChannel(s.channels, ChannelLabel(pats.channel, img.name)) else channelNames.value,
         s.planes + Footprint(PlacementOf(s, img, pats, ext)))
  }

  /** The scan state after visiting `images` in order. */
  function ScanOf(images: seq<Image>, pats: Patterns, ext: Extents, channelNames: Option<seq<string>>): Scan
    requires |images| > 0 && ext.c != 1 ==> channelNames.Some?
  {
    if images == [] then Scan(AxisState(ext.z, None), AxisState(ext.t, None), [], map[])
    else Step(ScanOf(images[..|images| - 1], pats, ext, channelNames), images[|images| - 1], pats, ext, channelNames)
  }

  /** A step writes the scanned image's footprint over the entries so far. */
  lemma {:induction false} StepPlanes(s: Scan, img: Image, pats: Patterns, ext: Extents,
                                      channelNames: Option<seq<string>>, k: Coord)
    requires ext.c != 1 ==> channelNames.Some?
    ensures var p := PlacementOf(s, img, pats, ext);
      var s' := Step(s, img, pats, ext, channelNames);
      && (k in s'.planes <==> k in s.planes || Hits(k, p))
      && (Hits(k, p) ==> s'.planes[k] == Source(k, p))
      && (!Hits(k, p) && k in s.planes ==> s'.planes[k] == s.planes[k])
  {
  }

  /** What the scan keeps true: each axis's start is within its size and is
      unset only before any plane is placed, a multiplexed axis keeps its
      native size, and every entry lies within the scanned axes with its
      source plane inside the source image. */
  ghost predicate InRange(s: Scan, ext: Extents)
  {
    && Offset(s.z) <= s.z.size && Offset(s.t) <= s.t.size
    && (ext.z != 1 ==> s.z.size == ext.z)
    && (ext.t != 1 ==> s.t.size == ext.t)
    && (s.z.start.None? ==> s.planes == map[])
    && (s.t.start.None? ==> s.planes == map[])
    && forall k | k in s.planes ::
      && Offset(s.z) <= k.z < s.z.size
      && Offset(s.t) <= k.t < s.t.size
      && (if ext.c == 1 then k.c < |s.channels| else k.c < ext.c)
      && s.planes[k].z < ext.z && s.planes[k].c < ext.c && s.planes[k].t < ext.t
  }

  /** An axis step keeps earlier destination indices inside the axis. */
  lemma {:induction false} AxisStepKeeps(a: AxisState, native: nat, index: nat, x: nat)
    requires a.start.Some? && Offset(a) <= x < a.size
    requires native != 1 ==> a.size == native
    ensures Offset(AxisStep(a, native, index)) <= x < AxisStep(a, native, index).size
  {
  }

  /** An axis step takes in the destination indices of the image it scans. */
  lemma {:induction false} AxisStepCovers(a: AxisState, native: nat, index: nat, x: nat)
    requires OnAxis(x, native, index)
    ensures Offset(AxisStep(a, native, index)) <= x < AxisStep(a, native, index).size
  {
  }

  /** Scanning one more image keeps every entry inside the scanned axes. */
  lemma {:induction false} StepInRange(s: Scan, img: Image, pats: Patterns, ext: Extents, channelNames: Option<seq<string>>)
    requires ext.c != 1 ==> channelNames.Some?
    requires InRange(s, ext)
    ensures InRange(Step(s, img, pats, ext, channelNames), ext)
  {
    var s' := Step(s, img, pats, ext, channelNames);
    forall k | k in s'.planes
      ensures Offset(s'.z) <= k.z < s'.z.size && Offset(s'.t) <= k.t < s'.t.size
      ensures if ext.c == 1 then k.c < |s'.channels| else k.c < ext.c
      ensures s'.planes[k].z < ext.z && s'.planes[k].c < ext.c && s'.planes[k].t < ext.t
    {
      StepEntryInRange(s, img, pats, ext, channelNames, k);
    }
  }

  /** One entry after a scan step: either the scanned image's, or an earlier one. */
  lemma {:induction false} StepEntryInRange(s: Scan, img: Image, pats: Patterns, ext: Extents,
                                            channelNames: Option<seq<string>>, k: Coord)
    requires ext.c != 1 ==> channelNames.Some?
    requires InRange(s, ext)
    requires k in Step(s, img, pats, ext, channelNames).planes
    ensures var s' := Step(s, img, pats, ext, channelNames);
      && Offset(s'.z) <= k.z < s'.z.size && Offset(s'.t) <= k.t < s'.t.size
      && (if ext.c == 1 then k.c < |s'.channels| else k.c < ext.c)
      && s'.planes[k].z < ext.z && s'.planes[k].c < ext.c && s'.planes[k].t < ext.t
  {
    var s' := Step(s, img, pats, ext, channelNames);
    var p := PlacementOf(s, img, pats, ext);
    if Hits(k, p) {
      AxisStepCovers(s.z, ext.z, p.z, k.z);
      AxisStepCovers(s.t, ext.t, p.t, k.t);
      assert s'.planes[k] == Source(k, p);
    } else {
      assert k in s.planes && s'.planes[k] == s.planes[k];
      AxisStepKeeps(s.z, ext.z, p.z, k.z);
      AxisStepKeeps(s.t, ext.t, p.t, k.t);
    }
  }

  lemma {:induction false} ScanInRange(images: seq<Image>, pats: Patterns, ext: Extents, channelNames: Option<seq<string>>)
    requires |images| > 0 && ext.c != 1 ==> channelNames.Some?
    ensures InRange(ScanOf(images, pats, ext, channelNames), ext)
  {
    if images != [] {
      ScanInRange(images[..|images| - 1], pats, ext, channelNames);
      StepInRange(ScanOf(images[..|images| - 1], pats, ext, channelNames), images[|images| - 1], pats, ext, channelNames);
    }
  }

  // ---------------------------------------------------------------------
  // Shifting to zero and the final result

  /** A key moved down by the axes' offsets. */
  function ShiftKey(k: Coord, dz: nat, dt: nat): Coord
    requires dz <= k.z && dt <= k.t
  {
    Coord(k.z - dz, k.c, k.t - dt)
  }

  /** Every entry of `planes` moved down by the offsets. */
  function ShiftAll(planes: map<Coord, Locator>, dz: nat, dt: nat): (shifted: map<Coord, Locator>)
    requires forall k | k in planes :: dz <= k.z && dt <= k.t
    ensures forall j :: j in shifted <==> Unshift(j, dz, dt) in planes
    ensures forall j | j in shifted :: shifted[j] == planes[Unshift(j, dz, dt)]
  {
    var m := map k | k in planes :: ShiftKey(k, dz, dt) := planes[k];
    assert forall j | Unshift(j, dz, dt) in planes :: j == ShiftKey(Unshift(j, dz, dt), dz, dt);
    m
  }

  /** The key a shifted key came from. */
  function Unshift(j: Coord, dz: nat, dt: nat): Coord
  {
    Coord(j.z + dz, j.c, j.t + dt)
  }

  /** The channel list as a table from channel index to name. */
  function ChannelTable(channels: seq<string>): (table: map<nat, string>)
    ensures forall c: int :: c in table <==> 0 <= c < |channels|
    ensures forall c | c in table :: table[c] == channels[c]
  {
    map c | 0 <= c < |channels| :: channels[c]
  }

  /** The assignment handed to the assembly: sizes of the Z and T axes, the
      channel names by index, and the source plane for each destination. */
  datatype Assigned = Assigned(sizeZ: nat, channelNames: map<nat, string>, sizeT: nat, planes: map<Coord, Locator>)

  /** The result of a scan: when either axis starts above 0 both axes are
      shifted down to start at 0 and shrunk by their offsets. */
  function Finish(s: Scan): Assigned
    requires Offset(s.z) <= s.z.size && Offset(s.t) <= s.t.size
    requires forall k | k in s.planes :: Offset(s.z) <= k.z && Offset(s.t) <= k.t
  {
    var dz := Offset(s.z);
    var dt := Offset(s.t);
    if dz > 0 || dt > 0 then
      Assigned(s.z.size - dz, ChannelTable(s.channels), s.t.size - dt, ShiftAll(s.planes, dz, dt))
    else
      Assigned(s.z.size, ChannelTable(s.channels), s.t.size, s.planes)
  }

  /** The assignment of `images`, in the order they are listed. */
  function Assign(images: seq<Image>, pats: Patterns, ext: Extents, channelNames: Option<seq<string>>): Assigned
    requires |images| > 0 && ext.c != 1 ==> channelNames.Some?
  {
    ScanInRange(images, pats, ext, channelNames);
    Finish(ScanOf(images, pats, ext, channelNames))
  }


  // ---------------------------------------------------------------------
  // The scan as the script runs it

  /** The images listed by id, each with its name. */
  function Sources(ids: seq<nat>, names: map<nat, string>): (images: seq<Image>)
    requires forall i | 0 <= i < |ids| :: ids[i] in names
    ensures |images| == |ids|
    ensures forall i | 0 <= i < |ids| :: images[i] == Image(ids[i], names[ids[i]])
  {
    seq(|ids|, i requires 0 <= i < |ids| => Image(ids[i], names[ids[i]]))
  }

  /** The Z or T part of one pass: the index the name gives on a
      single-plane axis, and the axis's new size and start. */
  method ScanAxis(a: AxisState, native: nat, p: Pattern<Digits>, name: string)
    returns (next: AxisState, index: nat)
    ensures index == if native == 1 then AxisIndex(p, name) else 0
    ensures next == AxisStep(a, native, index)
  {
    index := 0;
    if native == 1 {
      var found := Search(p, name);
      index := if found.None? then 0 else DecimalValue(found.value);
      var start := if a.start.None? then index else Min(a.start.value, index);
      next := AxisState(Max(a.size, index + 1), Some(start));
    } else {
      next := AxisState(native, Some(0));
    }
  }

  /** The channel part of one pass: on a single-plane channel axis the name's
      label gets its earlier index or is appended; a multiplexed channel axis
      takes the explicit channel names. */
  method ScanChannel(channels: seq<string>, native: nat, p: Pattern<string>, name: string,
                     channelNames: Option<seq<string>>)
    returns (next: seq<string>, index: nat)
    requires native != 1 ==> channelNames.Some?
    ensures native == 1 ==> index == ChannelIndex(channels, ChannelLabel(p, name))
    ensures native == 1 ==> next == AddChannel(channels, ChannelLabel(p, name))
    ensures native != 1 ==> index == 0 && next == channelNames.value
  {
    index := 0;
    next := channels;
    if native == 1 {
      var found := Search(p, name);
      var cName := if found.None? then "0" else found.value;
      if cName in channels {
        index := IndexOf(channels, cName);
      } else {
        index := |channels|;
        next := channels + [cName];
      }
    } else {
      next := channelNames.value;
    }
  }

  /** One pass of the loop over images, in the script's order T, channel, Z,
      then the placement of the image's planes. */
  method ScanImage(s: Scan, img: Image, pats: Patterns, ext: Extents, channelNames: Option<seq<string>>)
    returns (next: Scan)
    requires ext.c != 1 ==> channelNames.Some?
    ensures next == Step(s, img, pats, ext, channelNames)
  {
    var t, theT := ScanAxis(s.t, ext.t, pats.time, img.name);
    var channels, theC := ScanChannel(s.channels, ext.c, pats.channel, img.name, channelNames);
    var z, theZ := ScanAxis(s.z, ext.z, pats.z, img.name);
    var p := Placement(img.id, ext, theZ, theC, theT);
    assert p == PlacementOf(s, img, pats, ext);
    var planes := PlaceImage(s.planes, p);
    next := Scan(z, t, channels, planes);
  }

  /** The loop over all entries that moves each key down by the offsets. */
  method ShiftPlanes(planes: map<Coord, Locator>, dz: nat, dt: nat) returns (shifted: map<Coord, Locator>)
    requires forall k | k in planes :: dz <= k.z && dt <= k.t
    ensures shifted == ShiftAll(planes, dz, dt)
  {
    shifted := map[];
    var rest := planes.Keys;
    while rest != {}
      invariant rest <= planes.Keys
      invariant forall j :: j in shifted <==> Unshift(j, dz, dt) in planes && Unshift(j, dz, dt) !in rest
      invariant forall j | j in shifted :: shifted[j] == planes[Unshift(j, dz, dt)]
      decreases rest
    {
      var key :| key in rest;
      assert Unshift(ShiftKey(key, dz, dt), dz, dt) == key;
      shifted := shifted[ShiftKey(key, dz, dt) := planes[key]];
      rest := rest - {key};
    }
  }

  /** The loop that numbers the channel names. */
  method TabulateChannels(channels: seq<string>) returns (table: map<nat, string>)
    ensures table == ChannelTable(channels)
  {
    table := map[];
    for c := 0 to |channels|
      invariant table == ChannelTable(channels[..c])
    {
      table := table[c := channels[c]];
    }
    assert channels[..|channels|] == channels;
  }

  /** Assigns every image to destination planes by the indices its name
      gives, then shifts Z and T down to start at 0 and numbers the channel
      names. */
  method AssignImages(ids: seq<nat>, names: map<nat, string>, pats: Patterns, ext: Extents,
                      channelNames: Option<seq<string>>)
    returns (result: Assigned)
    requires forall i | 0 <= i < |ids| :: ids[i] in names
    requires |ids| > 0 && ext.c != 1 ==> channelNames.Some?
    ensures result == Assign(Sources(ids, names), pats, ext, channelNames)
  {
    ghost var images := Sources(ids, names);
    var s := Scan(AxisState(ext.z, None), AxisState(ext.t, None), [], map[]);
    for i := 0 to |ids|
      invariant s == ScanOf(images[..i], pats, ext, channelNames)
    {
      ScanNext(images, i, pats, ext, channelNames);
      s := ScanImage(s, Image(ids[i], names[ids[i]]), pats, ext, channelNames);
    }
    assert images[..|ids|] == images;
    ScanInRange(images, pats, ext, channelNames);
    result := FinishScan(s);
  }

  /** Scanning the first `i + 1` images is one step past scanning the first `i`. */
  lemma {:induction false} ScanNext(images: seq<Image>, i: nat, pats: Patterns, ext: Extents,
                                    channelNames: Option<seq<string>>)
    requires i < |images| && (ext.c != 1 ==> channelNames.Some?)
    ensures ScanOf(images[..i + 1], pats, ext, channelNames)
         == Step(ScanOf(images[..i], pats, ext, channelNames), images[i], pats, ext, channelNames)
  {
    assert images[..i + 1][..i] == images[..i];
  }

  /** The end of the scan: shift both axes down when either starts above 0,
      then number the channel names. */
  method FinishScan(s: Scan) returns (result: Assigned)
    requires Offset(s.z) <= s.z.size && Offset(s.t) <= s.t.size
    requires forall k | k in s.planes :: Offset(s.z) <= k.z && Offset(s.t) <= k.t
    ensures result == Finish(s)
  {
    var dz := if s.z.start.None? then 0 else s.z.start.value;
    var dt := if s.t.start.None? then 0 else s.t.start.value;
    var sizeZ, sizeT, planes := s.z.size, s.t.size, s.planes;
    if dz > 0 || dt > 0 {
      sizeT := sizeT - dt;
      sizeZ := sizeZ - dz;
      planes := ShiftPlanes(planes, dz, dt);
    }
    var table := TabulateChannels(s.channels);
    result := Assigned(sizeZ, table, sizeT, planes);
  }

  // ---------------------------------------------------------------------
  // What the assignment means

  /** The indices the images' names give on one axis (0 on a multiplexed one). */
  function AxisIndices(p: Pattern<Digits>, native: nat, images: seq<Image>): (indices: seq<nat>)
    ensures |indices| == |images|
    ensures forall j | 0 <= j < |images| :: indices[j] == if native == 1 then AxisIndex(p, images[j].name) else 0
  {
    seq(|images|, j requires 0 <= j < |images| => if native == 1 then AxisIndex(p, images[j].name) else 0)
  }

  /** The largest element. */
  function Largest(s: seq<nat>): (m: nat)
    requires s != []
    ensures m in s && forall i | 0 <= i < |s| :: s[i] <= m
  {
    if |s| == 1 then s[0] else Max(Largest(s[..|s| - 1]), s[|s| - 1])
  }

  /** The smallest element. */
  function Smallest(s: seq<nat>): (m: nat)
    requires s != []
    ensures m in s && forall i | 0 <= i < |s| :: m <= s[i]
  {
    if |s| == 1 then s[0] else Min(Smallest(s[..|s| - 1]), s[|s| - 1])
  }

  /** Scanning a single-plane axis spans its indices: the size is the
      largest index plus one and the start the smallest index. */
  lemma {:induction false} AxisOfSpan(indices: seq<nat>)
    requires indices != []
    ensures AxisOf(1, indices) == AxisState(Largest(indices) + 1, Some(Smallest(indices)))
  {
    AxisOfIsMaxAndMin(1, indices);
    var a := AxisOf(1, indices);
    var hi := Largest(indices);
    var i :| 0 <= i < |indices| && indices[i] == hi;
    assert hi < a.size;
    var lo := Smallest(indices);
    var j :| 0 <= j < |indices| && indices[j] == lo;
    assert a.start.value <= lo;
  }

  /** The scan's axes are the axis folds over the names' indices. */
  lemma {:induction false} ScanAxes(images: seq<Image>, pats: Patterns, ext: Extents, channelNames: Option<seq<string>>)
    requires |images| > 0 && ext.c != 1 ==> channelNames.Some?
    ensures ScanOf(images, pats, ext, channelNames).z == AxisOf(ext.z, AxisIndices(pats.z, ext.z, images))
    ensures ScanOf(images, pats, ext, channelNames).t == AxisOf(ext.t, AxisIndices(pats.time, ext.t, images))
  {
    if images != [] {
      ScanAxes(images[..|images| - 1], pats, ext, channelNames);
      ScanAxesStep(images, pats, ext, channelNames);
    }
  }

  /** Scanning one more image steps both axes by that image's indices. */
  lemma {:induction false} ScanAxesStep(images: seq<Image>, pats: Patterns, ext: Extents, channelNames: Option<seq<string>>)
    requires images != [] && (ext.c != 1 ==> channelNames.Some?)
    requires var init := images[..|images| - 1];
      && ScanOf(init, pats, ext, channelNames).z == AxisOf(ext.z, AxisIndices(pats.z, ext.z, init))
      && ScanOf(init, pats, ext, channelNames).t == AxisOf(ext.t, AxisIndices(pats.time, ext.t, init))
    ensures ScanOf(images, pats, ext, channelNames).z == AxisOf(ext.z, AxisIndices(pats.z, ext.z, images))
    ensures ScanOf(images, pats, ext, channelNames).t == AxisOf(ext.t, AxisIndices(pats.time, ext.t, images))
  {
    var init := images[..|images| - 1];
    assert AxisIndices(pats.z, ext.z, images)[..|images| - 1] == AxisIndices(pats.z, ext.z, init);
    assert AxisIndices(pats.time, ext.t, images)[..|images| - 1] == AxisIndices(pats.time, ext.t, init);
  }

  /** An axis less its offset spans its indices on a single-plane axis and
      keeps its native size otherwise. */
  lemma {:induction false} AxisShrunk(native: nat, indices: seq<nat>)
    ensures AxisOf(native, indices).size - Offset(AxisOf(native, indices))
         == if native == 1 && indices != [] then Largest(indices) + 1 - Smallest(indices) else native
  {
    AxisOfIsMaxAndMin(native, indices);
    if native == 1 && indices != [] {
      AxisOfSpan(indices);
    }
  }

  /** The result's sizes are the scanned sizes less the offsets, whether or
      not a shift happened. */
  lemma {:induction false} FinishSizes(s: Scan)
    requires Offset(s.z) <= s.z.size && Offset(s.t) <= s.t.size
    requires forall k | k in s.planes :: Offset(s.z) <= k.z && Offset(s.t) <= k.t
    ensures Finish(s).sizeZ == s.z.size - Offset(s.z)
    ensures Finish(s).sizeT == s.t.size - Offset(s.t)
  {
  }

  /** After the shift a single-plane Z or T axis is exactly as large as the
      span of the indices the names give; a multiplexed axis, or an empty
      image list, keeps the native size. */
  lemma {:induction false} AssignedSizes(images: seq<Image>, pats: Patterns, ext: Extents, channelNames: Option<seq<string>>)
    requires |images| > 0 && ext.c != 1 ==> channelNames.Some?
    ensures var zs := AxisIndices(pats.z, ext.z, images);
      Assign(images, pats, ext, channelNames).sizeZ
        == if ext.z == 1 && images != [] then Largest(zs) + 1 - Smallest(zs) else ext.z
    ensures var ts := AxisIndices(pats.time, ext.t, images);
      Assign(images, pats, ext, channelNames).sizeT
        == if ext.t == 1 && images != [] then Largest(ts) + 1 - Smallest(ts) else ext.t
  {
    ScanInRange(images, pats, ext, channelNames);
    ScanAxes(images, pats, ext, channelNames);
    FinishedAxes(ScanOf(images, pats, ext, channelNames), ext,
                 AxisIndices(pats.z, ext.z, images), AxisIndices(pats.time, ext.t, images));
  }

  /** The result's sizes when the scanned axes are those of the given indices. */
  lemma {:induction false} FinishedAxes(s: Scan, ext: Extents, zs: seq<nat>, ts: seq<nat>)
    requires InRange(s, ext)
    requires s.z == AxisOf(ext.z, zs) && s.t == AxisOf(ext.t, ts)
    ensures Finish(s).sizeZ == if ext.z == 1 && zs != [] then Largest(zs) + 1 - Smallest(zs) else ext.z
    ensures Finish(s).sizeT == if ext.t == 1 && ts != [] then Largest(ts) + 1 - Smallest(ts) else ext.t
  {
    FinishSizes(s);
    AxisShrunk(ext.z, zs);
    AxisShrunk(ext.t, ts);
  }

  /** Every entry of the result lies inside the result's axes, its channel
      is a named channel (or a native one when the channel axis is
      multiplexed), and its source plane lies inside the source image. */
  lemma {:induction false} AssignedInRange(images: seq<Image>, pats: Patterns, ext: Extents, channelNames: Option<seq<string>>)
    requires |images| > 0 && ext.c != 1 ==> channelNames.Some?
    ensures var r := Assign(images, pats, ext, channelNames);
      forall k | k in r.planes ::
        && k.z < r.sizeZ && k.t < r.sizeT
        && (if ext.c == 1 then k.c in r.channelNames else k.c < ext.c)
        && r.planes[k].z < ext.z && r.planes[k].c < ext.c && r.planes[k].t < ext.t
  {
    ScanInRange(images, pats, ext, channelNames);
    FinishInRange(ScanOf(images, pats, ext, channelNames), ext);
  }

  /** Finishing a scan that is in range keeps every entry in range. */
  lemma {:induction false} FinishInRange(s: Scan, ext: Extents)
    requires InRange(s, ext)
    ensures var r := Finish(s);
      forall k | k in r.planes ::
        && k.z < r.sizeZ && k.t < r.sizeT
        && (if ext.c == 1 then k.c in r.channelNames else k.c < ext.c)
        && r.planes[k].z < ext.z && r.planes[k].c < ext.c && r.planes[k].t < ext.t
  {
    FinishSizes(s);
    var r := Finish(s);
    forall k | k in r.planes
      ensures k.z < r.sizeZ && k.t < r.sizeT
      ensures if ext.c == 1 then k.c in r.channelNames else k.c < ext.c
      ensures r.planes[k].z < ext.z && r.planes[k].c < ext.c && r.planes[k].t < ext.t
    {
      var u := Unshift(k, Offset(s.z), Offset(s.t));
      if Offset(s.z) > 0 || Offset(s.t) > 0 {
        assert u in s.planes && r.planes[k] == s.planes[u];
      } else {
        assert u == k;
      }
    }
  }

  /** Where the `j`-th image goes, given the images scanned before it. */
  function PlacementAt(images: seq<Image>, j: nat, pats: Patterns, ext: Extents, channelNames: Option<seq<string>>): Placement
    requires j < |images|
    requires ext.c != 1 ==> channelNames.Some?
  {
    PlacementOf(ScanOf(images[..j], pats, ext, channelNames), images[j], pats, ext)
  }

  /** The images before the last are placed as they are in the shorter list. */
  lemma {:induction false} PlacementInPrefix(images: seq<Image>, j: nat, pats: Patterns, ext: Extents, channelNames: Option<seq<string>>)
    requires j < |images| - 1
    requires ext.c != 1 ==> channelNames.Some?
    ensures PlacementAt(images[..|images| - 1], j, pats, ext, channelNames) == PlacementAt(images, j, pats, ext, channelNames)
  {
    assert images[..|images| - 1][..j] == images[..j];
  }

  /** No image from index `from` on hits `k`. */
  ghost predicate UnhitFrom(images: seq<Image>, from: nat, k: Coord, pats: Patterns, ext: Extents,
                            channelNames: Option<seq<string>>)
    requires ext.c != 1 ==> channelNames.Some?
  {
    forall l | from <= l < |images| :: !Hits(k, PlacementAt(images, l, pats, ext, channelNames))
  }

  lemma {:induction false} UnhitInPrefix(images: seq<Image>, from: nat, k: Coord, pats: Patterns, ext: Extents,
                      channelNames: Option<seq<string>>)
    requires images != []
    requires ext.c != 1 ==> channelNames.Some?
    requires UnhitFrom(images, from, k, pats, ext, channelNames)
    ensures UnhitFrom(images[..|images| - 1], from, k, pats, ext, channelNames)
    ensures from < |images| ==> !Hits(k, PlacementAt(images, |images| - 1, pats, ext, channelNames))
  {
    var init := images[..|images| - 1];
    forall l | from <= l < |init|
      ensures !Hits(k, PlacementAt(init, l, pats, ext, channelNames))
    {
      PlacementInPrefix(images, l, pats, ext, channelNames);
    }
  }

  /** The scan of the images writes the last image's footprint over the
      scan of those before it. */
  lemma {:induction false} LastStepPlanes(images: seq<Image>, k: Coord, pats: Patterns, ext: Extents,
                                          channelNames: Option<seq<string>>)
    requires images != []
    requires ext.c != 1 ==> channelNames.Some?
    ensures var p := PlacementAt(images, |images| - 1, pats, ext, channelNames);
      var before := ScanOf(images[..|images| - 1], pats, ext, channelNames).planes;
      var after := ScanOf(images, pats, ext, channelNames).planes;
      && (k in after <==> k in before || Hits(k, p))
      && (Hits(k, p) ==> after[k] == Source(k, p))
      && (!Hits(k, p) && k in before ==> after[k] == before[k])
  {
    StepPlanes(ScanOf(images[..|images| - 1], pats, ext, channelNames), images[|images| - 1], pats, ext, channelNames, k);
  }

  /** The last image writes its own plane at every destination it hits. */
  lemma {:induction false} WonByLast(images: seq<Image>, k: Coord, pats: Patterns, ext: Extents,
                                     channelNames: Option<seq<string>>)
    requires images != []
    requires ext.c != 1 ==> channelNames.Some?
    requires Hits(k, PlacementAt(images, |images| - 1, pats, ext, channelNames))
    ensures k in ScanOf(images, pats, ext, channelNames).planes
    ensures ScanOf(images, pats, ext, channelNames).planes[k] == Source(k, PlacementAt(images, |images| - 1, pats, ext, channelNames))
  {
    LastStepPlanes(images, k, pats, ext, channelNames);
  }

  /** A destination the last image misses keeps what the earlier images
      put there. */
  lemma {:induction false} KeptByLast(images: seq<Image>, j: nat, k: Coord, pats: Patterns, ext: Extents,
                                      channelNames: Option<seq<string>>)
    requires j < |images| - 1
    requires ext.c != 1 ==> channelNames.Some?
    requires !Hits(k, PlacementAt(images, |images| - 1, pats, ext, channelNames))
    requires PlacementAt(images[..|images| - 1], j, pats, ext, channelNames) == PlacementAt(images, j, pats, ext, channelNames)
    requires k in ScanOf(images[..|images| - 1], pats, ext, channelNames).planes
    requires ScanOf(images[..|images| - 1], pats, ext, channelNames).planes[k]
          == Source(k, PlacementAt(images[..|images| - 1], j, pats, ext, channelNames))
    ensures k in ScanOf(images, pats, ext, channelNames).planes
    ensures ScanOf(images, pats, ext, channelNames).planes[k] == Source(k, PlacementAt(images, j, pats, ext, channelNames))
  {
    LastStepPlanes(images, k, pats, ext, channelNames);
  }

  /** An image before the last that hits `k`, with no later image hitting
      it, does so in the list without the last image too. */
  lemma {:induction false} HitInPrefix(images: seq<Image>, j: nat, k: Coord, pats: Patterns, ext: Extents,
                                       channelNames: Option<seq<string>>)
    requires j < |images| - 1
    requires ext.c != 1 ==> channelNames.Some?
    requires Hits(k, PlacementAt(images, j, pats, ext, channelNames))
    requires UnhitFrom(images, j + 1, k, pats, ext, channelNames)
    ensures Hits(k, PlacementAt(images[..|images| - 1], j, pats, ext, channelNames))
    ensures PlacementAt(images[..|images| - 1], j, pats, ext, channelNames) == PlacementAt(images, j, pats, ext, channelNames)
    ensures UnhitFrom(images[..|images| - 1], j + 1, k, pats, ext, channelNames)
    ensures !Hits(k, PlacementAt(images, |images| - 1, pats, ext, channelNames))
  {
    PlacementInPrefix(images, j, pats, ext, channelNames);
    UnhitInPrefix(images, j + 1, k, pats, ext, channelNames);
  }

  /** The last image to hit a destination wins: the destination holds that
      image's plane whatever earlier images put there. */
  lemma {:induction false} LastWins(images: seq<Image>, j: nat, k: Coord, pats: Patterns, ext: Extents,
                                    channelNames: Option<seq<string>>)
    requires j < |images|
    requires ext.c != 1 ==> channelNames.Some?
    requires Hits(k, PlacementAt(images, j, pats, ext, channelNames))
    requires UnhitFrom(images, j + 1, k, pats, ext, channelNames)
    ensures k in ScanOf(images, pats, ext, channelNames).planes
    ensures ScanOf(images, pats, ext, channelNames).planes[k] == Source(k, PlacementAt(images, j, pats, ext, channelNames))
  {
    if j < |images| - 1 {
      HitInPrefix(images, j, k, pats, ext, channelNames);
      LastWins(images[..|images| - 1], j, k, pats, ext, channelNames);
      KeptByLast(images, j, k, pats, ext, channelNames);
    } else {
      WonByLast(images, k, pats, ext, channelNames);
    }
  }

  /** A destination no image hits stays empty. */
  lemma {:induction false} UnhitIsAbsent(images: seq<Image>, k: Coord, pats: Patterns, ext: Extents,
                                         channelNames: Option<seq<string>>)
    requires ext.c != 1 ==> channelNames.Some?
    requires UnhitFrom(images, 0, k, pats, ext, channelNames)
    ensures k !in ScanOf(images, pats, ext, channelNames).planes
  {
    if images != [] {
      UnhitInPrefix(images, 0, k, pats, ext, channelNames);
      UnhitIsAbsent(images[..|images| - 1], k, pats, ext, channelNames);
    }
  }

  /** Finishing moves every entry down by the offsets and keeps its value. */
  lemma {:induction false} FinishEntry(s: Scan, k: Coord)
    requires Offset(s.z) <= s.z.size && Offset(s.t) <= s.t.size
    requires forall k | k in s.planes :: Offset(s.z) <= k.z && Offset(s.t) <= k.t
    requires k in s.planes
    ensures ShiftKey(k, Offset(s.z), Offset(s.t)) in Finish(s).planes
    ensures Finish(s).planes[ShiftKey(k, Offset(s.z), Offset(s.t))] == s.planes[k]
  {
    assert Unshift(ShiftKey(k, Offset(s.z), Offset(s.t)), Offset(s.z), Offset(s.t)) == k;
  }

  /** After the shift, the destination of the last image to hit `k` holds
      that image's plane at `k` moved down by the axes' offsets. */
  lemma {:induction false} AssignedLastWins(images: seq<Image>, j: nat, k: Coord, pats: Patterns, ext: Extents,
                         channelNames: Option<seq<string>>)
    requires j < |images|
    requires ext.c != 1 ==> channelNames.Some?
    requires Hits(k, PlacementAt(images, j, pats, ext, channelNames))
    requires UnhitFrom(images, j + 1, k, pats, ext, channelNames)
    ensures var s := ScanOf(images, pats, ext, channelNames);
      Offset(s.z) <= k.z && Offset(s.t) <= k.t
    ensures var s := ScanOf(images, pats, ext, channelNames);
      var r := Assign(images, pats, ext, channelNames);
      && ShiftKey(k, Offset(s.z), Offset(s.t)) in r.planes
      && r.planes[ShiftKey(k, Offset(s.z), Offset(s.t))] == Source(k, PlacementAt(images, j, pats, ext, channelNames))
  {
    var s := ScanOf(images, pats, ext, channelNames);
    LastWins(images, j, k, pats, ext, channelNames);
    ScanInRange(images, pats, ext, channelNames);
    FinishEntry(s, k);
  }

  // ---------------------------------------------------------------------
  // Channels

  /** The channel labels the images' names give, in image order. */
  function Labels(p: Pattern<string>, images: seq<Image>): (labels: seq<string>)
    ensures |labels| == |images|
    ensures forall j | 0 <= j < |images| :: labels[j] == ChannelLabel(p, images[j].name)
  {
    seq(|images|, j requires 0 <= j < |images| => ChannelLabel(p, images[j].name))
  }

  /** No name appears twice. */
  predicate Distinct(s: seq<string>)
  {
    forall a, b | 0 <= a < b < |s| :: s[a] != s[b]
  }

  /** The first occurrence of a label is the same in a list and in any
      extension of it. */
  lemma {:induction false} IndexOfExtended(s: seq<string>, t: seq<string>, x: string)
    requires x in s
    ensures x in s + t && IndexOf(s + t, x) == IndexOf(s, x)
  {
    var i := IndexOf(s, x);
    var i' := IndexOf(s + t, x);
    assert (s + t)[i] == x;
    assert i' <= i;
    assert s[i'] == x;
  }

  /** The labels with repeats dropped, kept in order of first appearance:
      the channel list a single-plane channel axis builds. */
  function FirstSeen(labels: seq<string>): seq<string>
  {
    if labels == [] then [] else AddChannel(FirstSeen(labels[..|labels| - 1]), labels[|labels| - 1])
  }

  /** The scan's channel list on a single-plane channel axis. */
  lemma {:induction false} ScanChannels(images: seq<Image>, pats: Patterns, ext: Extents,
                                        channelNames: Option<seq<string>>)
    requires ext.c == 1
    ensures ScanOf(images, pats, ext, channelNames).channels == FirstSeen(Labels(pats.channel, images))
  {
    if images != [] {
      var init := images[..|images| - 1];
      ScanChannels(init, pats, ext, channelNames);
      assert Labels(pats.channel, images)[..|images| - 1] == Labels(pats.channel, init);
    }
  }

  /** Each label appears once in the channel list, and nothing else does. */
  lemma {:induction false} FirstSeenMembers(labels: seq<string>)
    ensures Distinct(FirstSeen(labels))
    ensures forall x :: x in FirstSeen(labels) <==> x in labels
  {
    if labels != [] {
      var init := labels[..|labels| - 1];
      FirstSeenMembers(init);
      assert labels == init + [labels[|labels| - 1]];
    }
  }

  /** The channel list is ordered by each label's first appearance. */
  lemma {:induction false} FirstSeenOrder(labels: seq<string>)
    ensures forall x | x in FirstSeen(labels) :: x in labels
    ensures forall a, b | 0 <= a < b < |FirstSeen(labels)| ::
      IndexOf(labels, FirstSeen(labels)[a]) < IndexOf(labels, FirstSeen(labels)[b])
  {
    FirstSeenMembers(labels);
    if labels != [] {
      FirstSeenOrder(labels[..|labels| - 1]);
      FirstSeenOrderStep(labels);
    }
  }

  /** One more label keeps the channel list in order of first occurrence. */
  lemma {:induction false} FirstSeenOrderStep(labels: seq<string>)
    requires labels != []
    requires var init := labels[..|labels| - 1];
      && (forall x | x in FirstSeen(init) :: x in init)
      && forall a, b | 0 <= a < b < |FirstSeen(init)| ::
        IndexOf(init, FirstSeen(init)[a]) < IndexOf(init, FirstSeen(init)[b])
    requires forall x | x in FirstSeen(labels) :: x in labels
    ensures forall a, b | 0 <= a < b < |FirstSeen(labels)| ::
      IndexOf(labels, FirstSeen(labels)[a]) < IndexOf(labels, FirstSeen(labels)[b])
  {
    var init := labels[..|labels| - 1];
    var x := labels[|labels| - 1];
    FirstSeenMembers(init);
    assert labels == init + [x];
    if x !in FirstSeen(init) {
      OrderedAfterNew(init, x, FirstSeen(init));
    } else {
      OrderedAfterSeen(init, x, FirstSeen(init));
    }
  }

  /** A label seen for the first time goes after every earlier channel. */
  lemma {:induction false} OrderedAfterNew(init: seq<string>, x: string, cs: seq<string>)
    requires x !in init
    requires forall y | y in cs :: y in init
    requires forall a, b | 0 <= a < b < |cs| :: IndexOf(init, cs[a]) < IndexOf(init, cs[b])
    ensures forall a, b | 0 <= a < b < |cs + [x]| :: IndexOf(init + [x], (cs + [x])[a]) < IndexOf(init + [x], (cs + [x])[b])
  {
    var labels := init + [x];
    forall y | y in init ensures IndexOf(labels, y) == IndexOf(init, y) {
      IndexOfExtended(init, [x], y);
    }
    assert IndexOf(labels, x) == |init|;
    forall a, b | 0 <= a < b < |cs + [x]|
      ensures IndexOf(labels, (cs + [x])[a]) < IndexOf(labels, (cs + [x])[b])
    {
      assert (cs + [x])[a] == cs[a] && cs[a] in init;
      if b < |cs| {
        assert (cs + [x])[b] == cs[b] && cs[b] in init;
      }
    }
  }

  /** A label seen before leaves the channels and their order as they were. */
  lemma {:induction false} OrderedAfterSeen(init: seq<string>, x: string, cs: seq<string>)
    requires forall y | y in cs :: y in init
    requires forall a, b | 0 <= a < b < |cs| :: IndexOf(init, cs[a]) < IndexOf(init, cs[b])
    ensures forall a, b | 0 <= a < b < |cs| :: IndexOf(init + [x], cs[a]) < IndexOf(init + [x], cs[b])
  {
    forall a, b | 0 <= a < b < |cs|
      ensures IndexOf(init + [x], cs[a]) < IndexOf(init + [x], cs[b])
    {
      IndexOfExtended(init, [x], cs[a]);
      IndexOfExtended(init, [x], cs[b]);
    }
  }

  /** The channel list only grows as the scan goes on. */
  lemma {:induction false} ChannelsGrow(images: seq<Image>, j: nat, pats: Patterns, ext: Extents,
                                        channelNames: Option<seq<string>>)
    requires ext.c == 1 && j <= |images|
    ensures ScanOf(images[..j], pats, ext, channelNames).channels
         <= ScanOf(images, pats, ext, channelNames).channels
  {
    var labels := Labels(pats.channel, images);
    ScanChannels(images[..j], pats, ext, channelNames);
    ScanChannels(images, pats, ext, channelNames);
    assert Labels(pats.channel, images[..j]) == labels[..j];
    FirstSeenGrows(labels, j);
  }

  /** The channel list of a prefix of the labels is a prefix of the whole list. */
  lemma {:induction false} FirstSeenGrows(labels: seq<string>, j: nat)
    requires j <= |labels|
    ensures FirstSeen(labels[..j]) <= FirstSeen(labels)
  {
    if j < |labels| {
      var init := labels[..|labels| - 1];
      assert init[..j] == labels[..j];
      FirstSeenGrows(init, j);
      var before := FirstSeen(init);
      var after := FirstSeen(labels);
      assert before <= after;
      PrefixTransitive(FirstSeen(labels[..j]), before, after);
    } else {
      assert labels[..j] == labels;
    }
  }

  lemma {:induction false} PrefixTransitive<T>(a: seq<T>, b: seq<T>, c: seq<T>)
    requires a <= b && b <= c
    ensures a <= c
  {
    assert |a| <= |b| <= |c|;
    assert a == b[..|a|] && b == c[..|b|];
    assert c[..|b|][..|a|] == c[..|a|];
  }

  /** On a single-plane channel axis each image's planes go to the channel
      the final table names by that image's label. */
  lemma {:induction false} ChannelOfImage(images: seq<Image>, j: nat, pats: Patterns, ext: Extents,
                       channelNames: Option<seq<string>>)
    requires ext.c == 1 && j < |images|
    ensures var cs := ScanOf(images, pats, ext, channelNames).channels;
      && PlacementAt(images, j, pats, ext, channelNames).c < |cs|
      && cs[PlacementAt(images, j, pats, ext, channelNames).c] == ChannelLabel(pats.channel, images[j].name)
  {
    assert images[..j + 1][..j] == images[..j];
    ChannelsGrow(images, j + 1, pats, ext, channelNames);
  }

  /** A multiplexed channel axis takes its channel list from the explicit
      channel names as soon as one image is scanned. */
  lemma {:induction false} ChannelsGiven(images: seq<Image>, pats: Patterns, ext: Extents, channelNames: Option<seq<string>>)
    requires ext.c != 1 && images != [] && channelNames.Some?
    ensures ScanOf(images, pats, ext, channelNames).channels == channelNames.value
  {
  }

  /** The channel names handed on are the channels the scan found,
      numbered from 0. */
  lemma {:induction false} AssignedChannels(images: seq<Image>, pats: Patterns, ext: Extents, channelNames: Option<seq<string>>)
    requires |images| > 0 && ext.c != 1 ==> channelNames.Some?
    ensures Assign(images, pats, ext, channelNames).channelNames
         == ChannelTable(ScanOf(images, pats, ext, channelNames).channels)
  {
  }
}
