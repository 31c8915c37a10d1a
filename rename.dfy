/** The renaming rule of `batchNameChange.py`: each image gets a new name made
    of the dimension labels and tokens its old name matches, in a fixed order. */
module Rename {
  import opened Common

  datatype Dim = Well | Field | Channel | Z | Time

  /** The dimension's key as written in the new name. */
  function Label(d: Dim): string
  {
    match d
    case Well => "Well"
    case Field => "Field"
    case Channel => "Channel"
    case Z => "Z"
    case Time => "Time"
  }

  /** Position of a dimension in the fixed order Well, Field, Channel, Z, Time. */
  function Rank(d: Dim): nat
  {
    match d
    case Well => 0
    case Field => 1
    case Channel => 2
    case Z => 3
    case Time => 4
  }

  const DimOrder: seq<Dim> := [Well, Field, Channel, Z, Time]

  /** A configured regex: switched off (`False`), or a search that yields the
      named group's text when the name matches. */
  datatype Regex = NoRegex | Regex(search: string -> Option<string>)

  function Search(r: Regex, name: string): Option<string>
  {
    match r
    case NoRegex => None
    case Regex(f) => f(name)
  }

  predicate Ascending(ds: seq<Dim>)
  {
    forall i, j :: 0 <= i < j < |ds| ==> Rank(ds[i]) < Rank(ds[j])
  }

  /** The dimensions of `ds` whose regex is switched on, order kept. */
  function Keep(ds: seq<Dim>, regexes: Dim -> Regex): seq<Dim>
  {
    if ds == [] then []
    else if regexes(ds[0]).Regex? then [ds[0]] + Keep(ds[1..], regexes)
    else Keep(ds[1..], regexes)
  }

  /** A dimension is kept exactly when it is listed and switched on. */
  lemma {:induction false} KeepMembers(ds: seq<Dim>, regexes: Dim -> Regex, d: Dim)
    ensures d in Keep(ds, regexes) <==> d in ds && regexes(d).Regex?
  {
    if ds != [] {
      KeepMembers(ds[1..], regexes, d);
      assert ds == [ds[0]] + ds[1..];
    }
  }

  /** Keeping preserves ascending rank order. */
  lemma {:induction false} KeepAscending(ds: seq<Dim>, regexes: Dim -> Regex)
    requires Ascending(ds)
    ensures Ascending(Keep(ds, regexes))
  {
    if ds != [] {
      var rest := ds[1..];
      forall i, j | 0 <= i < j < |rest|
        ensures Rank(rest[i]) < Rank(rest[j])
      {
        assert rest[i] == ds[i + 1] && rest[j] == ds[j + 1];
      }
      KeepAscending(rest, regexes);
      var k := Keep(rest, regexes);
      if regexes(ds[0]).Regex? {
        forall i | 0 <= i < |k|
          ensures Rank(ds[0]) < Rank(k[i])
        {
          KeepMembers(rest, regexes, k[i]);
          var j :| 0 <= j < |rest| && rest[j] == k[i];
          assert rest[j] == ds[j + 1];
        }
        var r := [ds[0]] + k;
        forall i, j | 0 <= i < j < |r|
          ensures Rank(r[i]) < Rank(r[j])
        {
          assert r[j] == k[j - 1];
          if i > 0 {
            assert r[i] == k[i - 1];
          }
        }
      }
    }
  }

  /** The fixed order lists every dimension, each once, by rank. */
  lemma {:induction false} AllDimsOrdered()
    ensures forall d: Dim :: d in DimOrder
    ensures Ascending(DimOrder)
  {
    forall d: Dim ensures d in DimOrder {
      assert DimOrder[Rank(d)] == d;
    }
  }

  /** The enabled dimensions, in the fixed dimension order. */
  function EnabledDims(regexes: Dim -> Regex): seq<Dim>
  {
    Keep(DimOrder, regexes)
  }

  /** The enabled dimensions are exactly those whose regex is switched on,
      in ascending rank. */
  lemma {:induction false} EnabledDimsMeaning(regexes: Dim -> Regex)
    ensures forall d: Dim :: d in EnabledDims(regexes) <==> regexes(d).Regex?
    ensures Ascending(EnabledDims(regexes))
  {
    AllDimsOrdered();
    forall d: Dim
      ensures d in EnabledDims(regexes) <==> regexes(d).Regex?
    {
      KeepMembers(DimOrder, regexes, d);
    }
    KeepAscending(DimOrder, regexes);
  }

  /** Keeping from a list that starts with `d`. */
  lemma {:induction false} KeepCons(d: Dim, ds: seq<Dim>, regexes: Dim -> Regex)
    ensures Keep([d] + ds, regexes) == if regexes(d).Regex? then [d] + Keep(ds, regexes) else Keep(ds, regexes)
  {
    assert ([d] + ds)[0] == d;
    assert ([d] + ds)[1..] == ds;
  }

  /** With the configuration the script ships (no Z regex), Z is the one
      dimension dropped. */
  lemma {:induction false} ShippedConfigDropsZ(regexes: Dim -> Regex)
    requires regexes(Z) == NoRegex
    requires regexes(Well).Regex? && regexes(Field).Regex? && regexes(Channel).Regex? && regexes(Time).Regex?
    ensures EnabledDims(regexes) == [Well, Field, Channel, Time]
  {
    var none: seq<Dim> := [];
    assert DimOrder == [Well] + ([Field] + ([Channel] + ([Z] + ([Time] + none))));
    KeepCons(Time, none, regexes);
    KeepCons(Z, [Time] + none, regexes);
    KeepCons(Channel, [Z] + ([Time] + none), regexes);
    KeepCons(Field, [Channel] + ([Z] + ([Time] + none)), regexes);
    KeepCons(Well, [Field] + ([Channel] + ([Z] + ([Time] + none))), regexes);
    assert [Well] + ([Field] + ([Channel] + [Time])) == [Well, Field, Channel, Time];
  }

  /** A channel token listed in `chan_change` is replaced; any other is kept. */
  function Translate(d: Dim, token: string, chanChange: map<string, string>): string
  {
    if d == Channel && token in chanChange then chanChange[token] else token
  }

  /** A matched dimension's label followed by its (translated) token. */
  function Text(d: Dim, token: string, chanChange: map<string, string>): string
  {
    Label(d) + Translate(d, token, chanChange)
  }

  /** The text dimension `d` contributes to the new name of `name`, or None
      when its search fails there. */
  function Contribution(d: Dim, r: Regex, chanChange: map<string, string>, name: string): Option<string>
  {
    match Search(r, name)
    case None => None
    case Some(token) => Some(Text(d, token, chanChange))
  }

  /** For each enabled dimension, in `dims` order, its contribution to the
      new name of `name`. */
  function Found(dims: seq<Dim>, regexes: Dim -> Regex, chanChange: map<string, string>, name: string)
    : (found: seq<Option<string>>)
    ensures |found| == |dims|
    ensures forall i :: 0 <= i < |dims| ==> found[i] == Contribution(dims[i], regexes(dims[i]), chanChange, name)
  {
    seq(|dims|, i requires 0 <= i < |dims| => Contribution(dims[i], regexes(dims[i]), chanChange, name))
  }

  /** What the `i`-th enabled dimension adds: its text, then `_` unless it is the last. */
  function Piece(found: seq<Option<string>>, i: nat): string
    requires i < |found|
  {
    match found[i]
    case None => ""
    case Some(text) => if i < |found| - 1 then text + "_" else text
  }

  /** The new name after the first `k` enabled dimensions have been visited. */
  function Built(found: seq<Option<string>>, k: nat): string
    requires k <= |found|
  {
    if k == 0 then "" else Built(found, k - 1) + Piece(found, k - 1)
  }

  /** The new name the script gives to an image called `name`. */
  function NewNameOf(dims: seq<Dim>, regexes: Dim -> Regex, chanChange: map<string, string>, name: string): string
  {
    var found := Found(dims, regexes, chanChange, name);
    Built(found, |found|)
  }

  /** The inner loop of the script: the new name of one image. */
  method NewName(dims: seq<Dim>, regexes: Dim -> Regex, chanChange: map<string, string>, name: string)
    returns (newName: string)
    ensures newName == NewNameOf(dims, regexes, chanChange, name)
  {
    ghost var found := Found(dims, regexes, chanChange, name);
    newName := "";
    for i := 0 to |dims|
      invariant newName == Built(found, i)
    {
      var search := Search(regexes(dims[i]), name);
      assert found[i] == Contribution(dims[i], regexes(dims[i]), chanChange, name);
      if search.None? {
        assert Piece(found, i) == "";
        continue;
      }
      var token := search.value;
      if dims[i] == Channel {
        if token in chanChange {
          token := chanChange[token];
        }
      }
      var piece := Label(dims[i]) + token;
      if i < |dims| - 1 {
        piece := piece + "_";
      }
      assert piece == Piece(found, i);
      newName := newName + piece;
    }
  }

  /** The outer loop of the script: one new name per image name, same order;
      the script passes `dims == EnabledDims(regexes)`. */
  method RenameAll(dims: seq<Dim>, regexes: Dim -> Regex, chanChange: map<string, string>, names: seq<string>)
    returns (newNames: seq<string>)
    ensures |newNames| == |names|
    ensures forall i :: 0 <= i < |names| ==> newNames[i] == NewNameOf(dims, regexes, chanChange, names[i])
  {
    newNames := [];
    for n := 0 to |names|
      invariant |newNames| == n
      invariant forall i :: 0 <= i < n ==> newNames[i] == NewNameOf(dims, regexes, chanChange, names[i])
    {
      var newName := NewName(dims, regexes, chanChange, names[n]);
      ghost var before := newNames;
      newNames := newNames + [newName];
      assert forall i :: 0 <= i < n ==> newNames[i] == before[i];
    }
  }

  /** The texts of the matched dimensions among the first `k`, in order. */
  function Matches(found: seq<Option<string>>, k: nat): seq<string>
    requires k <= |found|
  {
    if k == 0 then []
    else if found[k - 1].Some? then Matches(found, k - 1) + [found[k - 1].value]
    else Matches(found, k - 1)
  }

  /** The first `k` strings, each followed by an underscore, concatenated. */
  function UnderscoredPrefix(parts: seq<string>, k: nat): string
    requires k <= |parts|
  {
    if k == 0 then "" else UnderscoredPrefix(parts, k - 1) + (parts[k - 1] + "_")
  }

  /** Each string followed by an underscore, concatenated. */
  function Underscored(parts: seq<string>): string
  {
    UnderscoredPrefix(parts, |parts|)
  }

  /** The strings separated by underscores. */
  function Joined(parts: seq<string>): string
  {
    if parts == [] then "" else UnderscoredPrefix(parts, |parts| - 1) + parts[|parts| - 1]
  }

  lemma {:induction false} UnderscoredPrefixExtend(parts: seq<string>, x: string, k: nat)
    requires k <= |parts|
    ensures UnderscoredPrefix(parts + [x], k) == UnderscoredPrefix(parts, k)
  {
    if k > 0 {
      UnderscoredPrefixExtend(parts, x, k - 1);
      assert (parts + [x])[k - 1] == parts[k - 1];
    }
  }

  /** Before the last enabled dimension every matched piece carries its `_`,
      and an unmatched dimension adds nothing, not even a separator. */
  lemma {:induction false} BuiltBeforeLast(found: seq<Option<string>>, k: nat)
    requires k < |found|
    ensures Built(found, k) == Underscored(Matches(found, k))
  {
    if k > 0 {
      BuiltBeforeLast(found, k - 1);
      var earlier := Matches(found, k - 1);
      assert Built(found, k) == Built(found, k - 1) + Piece(found, k - 1);
      if found[k - 1].Some? {
        var x := found[k - 1].value;
        assert Matches(found, k) == earlier + [x];
        UnderscoredPrefixExtend(earlier, x, |earlier|);
        assert (earlier + [x])[|earlier|] == x;
        assert Underscored(earlier + [x]) == Underscored(earlier) + (x + "_");
        assert Piece(found, k - 1) == x + "_";
      } else {
        assert Matches(found, k) == earlier;
        assert Piece(found, k - 1) == [];
        assert Built(found, k - 1) + [] == Built(found, k - 1);
      }
    }
  }

  /** When the last enabled dimension matched, the new name is the matched
      texts joined by `_`. */
  lemma {:induction false} NameWhenLastMatched(found: seq<Option<string>>)
    requires |found| > 0 && found[|found| - 1].Some?
    ensures Built(found, |found|) == Joined(Matches(found, |found|))
  {
    var n := |found|;
    BuiltBeforeLast(found, n - 1);
    var earlier := Matches(found, n - 1);
    var last := found[n - 1].value;
    UnderscoredPrefixExtend(earlier, last, |earlier|);
    assert Piece(found, n - 1) == last;
  }

  /** When the last enabled dimension did not match, every matched text is
      followed by `_`. */
  lemma {:induction false} NameWhenLastUnmatched(found: seq<Option<string>>)
    requires |found| == 0 || found[|found| - 1].None?
    ensures Built(found, |found|) == Underscored(Matches(found, |found|))
  {
    var n := |found|;
    if n > 0 {
      BuiltBeforeLast(found, n - 1);
      assert Piece(found, n - 1) == [];
      assert Matches(found, n) == Matches(found, n - 1);
      assert Built(found, n) == Built(found, n - 1) + [];
      assert Built(found, n - 1) + [] == Built(found, n - 1);
    }
  }

  /** No match at all gives the empty name. */
  lemma {:induction false} NothingMatchedGivesEmpty(found: seq<Option<string>>, k: nat)
    requires k <= |found|
    requires forall i :: 0 <= i < k ==> found[i].None?
    ensures Built(found, k) == ""
  {
    if k > 0 {
      NothingMatchedGivesEmpty(found, k - 1);
    }
  }

  lemma {:induction false} MatchesNonEmpty(found: seq<Option<string>>, k: nat, i: nat)
    requires i < k <= |found| && found[i].Some?
    ensures |Matches(found, k)| > 0
  {
    if i < k - 1 {
      MatchesNonEmpty(found, k - 1, i);
    }
  }

  /** An unmatched last dimension after some matched one leaves a trailing `_`. */
  lemma {:induction false} TrailingUnderscore(found: seq<Option<string>>)
    requires |found| > 0 && found[|found| - 1].None?
    requires exists i :: 0 <= i < |found| && found[i].Some?
    ensures var r := Built(found, |found|); |r| > 0 && r[|r| - 1] == '_'
  {
    var i :| 0 <= i < |found| && found[i].Some?;
    MatchesNonEmpty(found, |found|, i);
    NameWhenLastUnmatched(found);
  }
}
