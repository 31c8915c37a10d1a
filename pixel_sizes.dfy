/** Reconciliation of the physical pixel sizes observed on the planes that
    make up a combined image (`pick_pixel_sizes`). */
module PixelSizes {
  import opened Common

  /** A physical length: a value with its unit, both compared for equality only. */
  datatype Length<V, U> = Length(value: V, unit: U)

  /** The first observation that is present, or None when all are absent. */
  function FirstPresent<V, U>(s: seq<Option<Length<V, U>>>): Option<Length<V, U>>
  {
    if s == [] then None
    else if s[0].Some? then s[0]
    else FirstPresent(s[1..])
  }

  /** All present observations agree on value and unit. */
  predicate Consistent<V(==), U(==)>(s: seq<Option<Length<V, U>>>)
  {
    forall i, j :: 0 <= i < |s| && 0 <= j < |s| && s[i].Some? && s[j].Some? ==>
      s[i].value.value == s[j].value.value && s[i].value.unit == s[j].value.unit
  }

  /** The size to set on the combined image, as specified. */
  function Agreed<V(==), U(==)>(s: seq<Option<Length<V, U>>>): Option<Length<V, U>>
  {
    if Consistent(s) then FirstPresent(s) else None
  }

  lemma {:induction false} FirstPresentAppend<V, U>(s: seq<Option<Length<V, U>>>, x: Option<Length<V, U>>)
    ensures FirstPresent(s + [x]) == if FirstPresent(s).Some? then FirstPresent(s) else x
  {
    if s != [] {
      assert (s + [x])[1..] == s[1..] + [x];
      FirstPresentAppend(s[1..], x);
    }
  }

  /** FirstPresent picks the entry at the least index that holds a value. */
  lemma {:induction false} FirstPresentIsFirst<V, U>(s: seq<Option<Length<V, U>>>)
    ensures FirstPresent(s).None? <==> forall i :: 0 <= i < |s| ==> s[i].None?
    ensures FirstPresent(s).Some? ==>
      exists k :: 0 <= k < |s| && s[k] == FirstPresent(s) && forall i :: 0 <= i < k ==> s[i].None?
  {
    if s != [] && s[0].None? {
      FirstPresentIsFirst(s[1..]);
      if FirstPresent(s).Some? {
        var k :| 0 <= k < |s[1..]| && s[1..][k] == FirstPresent(s[1..]) &&
          forall i :: 0 <= i < k ==> s[1..][i].None?;
        assert s[k + 1] == FirstPresent(s);
        assert forall i :: 0 <= i < k + 1 ==> s[i].None? by {
          forall i | 0 <= i < k + 1 ensures s[i].None? {
            if i > 0 { assert s[i] == s[1..][i - 1]; }
          }
        }
      } else {
        forall i | 0 <= i < |s| ensures s[i].None? {
          if i > 0 { assert s[i] == s[1..][i - 1]; }
        }
      }
    }
  }

  /** The loop of `pick_pixel_sizes`: skip absent entries, keep the first present
      one and give up (None) at the first entry that disagrees with it. */
  method PickPixelSizes<V(==), U(==)>(sizes: seq<Option<Length<V, U>>>) returns (r: Option<Length<V, U>>)
    ensures r == Agreed(sizes)
  {
    var pick: Option<Length<V, U>> := None;
    for i := 0 to |sizes|
      invariant pick == FirstPresent(sizes[..i])
      invariant forall j :: 0 <= j < i && sizes[j].Some? ==>
        pick.Some? && sizes[j].value.value == pick.value.value && sizes[j].value.unit == pick.value.unit
    {
      FirstPresentAppend(sizes[..i], sizes[i]);
      assert sizes[..i + 1] == sizes[..i] + [sizes[i]];
      if sizes[i].None? {
        continue;
      }
      if pick.None? {
        FirstPresentIsFirst(sizes[..i]);
        pick := sizes[i];
      } else if pick.value.value != sizes[i].value.value || pick.value.unit != sizes[i].value.unit {
        FirstPresentIsFirst(sizes[..i]);
        var k :| 0 <= k < i && sizes[..i][k] == pick;
        assert sizes[k] == pick;
        assert !Consistent(sizes);
        return None;
      }
    }
    assert sizes[..|sizes|] == sizes;
    assert Consistent(sizes);
    return pick;
  }

  /** None comes back exactly when nothing was observed or two observations differ. */
  lemma {:induction false} AgreedIsNoneExactly<V, U>(s: seq<Option<Length<V, U>>>)
    ensures Agreed(s).None? <==>
      (forall i :: 0 <= i < |s| ==> s[i].None?) ||
      (exists i, j :: 0 <= i < |s| && 0 <= j < |s| && s[i].Some? && s[j].Some? &&
         (s[i].value.value != s[j].value.value || s[i].value.unit != s[j].value.unit))
  {
    FirstPresentIsFirst(s);
  }

  /** When the observations agree, the result is the first present observation. */
  lemma {:induction false} AgreedIsFirstPresent<V, U>(s: seq<Option<Length<V, U>>>, k: nat)
    requires Consistent(s)
    requires k < |s| && s[k].Some? && forall i :: 0 <= i < k ==> s[i].None?
    ensures Agreed(s) == s[k]
  {
    FirstPresentIsFirst(s);
  }

  /** Three equal observations give that size; two different ones give none. */
  lemma {:induction false} AgreedExamples<U>(u: U)
    ensures Agreed([Some(Length(0.5, u)), Some(Length(0.5, u)), Some(Length(0.5, u))]) == Some(Length(0.5, u))
    ensures Agreed([Some(Length(0.5, u)), Some(Length(0.6, u))]).None?
  {
    var s := [Some(Length(0.5, u)), Some(Length(0.6, u))];
    assert s[0].value.value != s[1].value.value;
  }
}
