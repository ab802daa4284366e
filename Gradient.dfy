/** `ColorRegulator.reorderStops`: the stops of a linear 0..1 gradient are
    de-duplicated (last occurrence wins), padded to cover 0.0 and 1.0, and
    re-phased onto the 280-degree arc of a conical gradient whose offset 0
    is the top of the dial. The result keeps the ascending order of the
    input fractions, not of the new offsets. */
module GradientStops {
  import opened Wrappers

  /** The share of the full circle that the drawn arc covers, and half of it. */
  const Range: real := 0.778
  const HalfRange: real := Range * 0.5

  /** A gradient stop; the color type is left abstract. */
  datatype Stop<C> = Stop(offset: real, color: C)

  predicate StrictlyIncreasing(s: seq<real>)
  {
    forall i, j :: 0 <= i < j < |s| ==> s[i] < s[j]
  }

  // ---------------------------------------------------------------------
  // The sorted set of fractions (`TreeSet<Double>`): a set of reals whose
  // `first()`, `last()` and iteration order are given by the functions below.

  /** A non-empty set has an element. */
  lemma HasElement(s: set<real>)
    requires s != {}
    ensures exists y :: y in s
  {
    if forall y :: y !in s {
      assert false;
    }
  }

  lemma {:induction false} LeastExists(s: set<real>)
    requires s != {}
    ensures exists m :: m in s && forall x :: x in s ==> m <= x
    decreases |s|
  {
    HasElement(s);
    var y :| y in s;
    var rest := s - {y};
    if rest == {} {
      forall x | x in s ensures y <= x {
        assert x !in rest;
      }
    } else {
      LeastExists(rest);
      var m :| m in rest && forall x :: x in rest ==> m <= x;
      var least := if y < m then y else m;
      forall x | x in s ensures least <= x {
        if x != y { assert x in rest; }
      }
      assert least in s;
    }
  }

  lemma {:induction false} GreatestExists(s: set<real>)
    requires s != {}
    ensures exists m :: m in s && forall x :: x in s ==> x <= m
    decreases |s|
  {
    HasElement(s);
    var y :| y in s;
    var rest := s - {y};
    if rest == {} {
      forall x | x in s ensures x <= y {
        assert x !in rest;
      }
    } else {
      GreatestExists(rest);
      var m :| m in rest && forall x :: x in rest ==> x <= m;
      var greatest := if m < y then y else m;
      forall x | x in s ensures x <= greatest {
        if x != y { assert x in rest; }
      }
      assert greatest in s;
    }
  }

  /** `first()` of the sorted set. */
  function Least(s: set<real>): (m: real)
    requires s != {}
    ensures m in s && forall x :: x in s ==> m <= x
  {
    LeastExists(s);
    var m :| m in s && forall x :: x in s ==> m <= x; m
  }

  /** `last()` of the sorted set. */
  function Greatest(s: set<real>): (m: real)
    requires s != {}
    ensures m in s && forall x :: x in s ==> x <= m
  {
    GreatestExists(s);
    var m :| m in s && forall x :: x in s ==> x <= m; m
  }

  /** The iteration order of the sorted set: each element once, ascending. */
  function Ascending(s: set<real>): (r: seq<real>)
    ensures StrictlyIncreasing(r) && |r| == |s|
    ensures forall x :: x in r <==> x in s
    decreases |s|
  {
    if s == {} then []
    else
      var m := Least(s);
      var rest := Ascending(s - {m});
      assert forall i :: 0 <= i < |rest| ==> m < rest[i] by {
        forall i | 0 <= i < |rest| ensures m < rest[i] {
          assert rest[i] in s - {m};
        }
      }
      [m] + rest
  }

  /** A strictly increasing sequence holding exactly the elements of `s` is
      the iteration order of `s`: there is only one. */
  lemma {:induction false} AscendingUnique(s: set<real>, t: seq<real>)
    requires StrictlyIncreasing(t)
    requires forall x :: x in t <==> x in s
    ensures t == Ascending(s)
    decreases |t|
  {
    if t == [] {
      forall x ensures x in s <==> x in {} { }
      assert s == {};
    } else {
      HeadIsLeast(s, t);
      var rest := s - {t[0]};
      AscendingUnique(rest, t[1..]);
      calc {
        Ascending(s);
        [Least(s)] + Ascending(s - {Least(s)});
        [t[0]] + Ascending(rest);
        [t[0]] + t[1..];
        t;
      }
    }
  }

  /** The head of a strictly increasing sequence holding `s` is the least
      element of `s`, and its tail holds the rest. */
  lemma HeadIsLeast(s: set<real>, t: seq<real>)
    requires StrictlyIncreasing(t) && t != []
    requires forall x :: x in t <==> x in s
    ensures s != {} && Least(s) == t[0]
    ensures StrictlyIncreasing(t[1..])
    ensures forall x :: x in t[1..] <==> x in s - {t[0]}
  {
    assert t[0] in t;
    var m := Least(s);
    assert m in t;
    var k :| 0 <= k < |t| && t[k] == m;
    assert m == t[0] by {
      assert t[0] <= m;
    }
    forall x ensures x in t[1..] <==> x in s - {t[0]} {
      if x in t {
        var i :| 0 <= i < |t| && t[i] == x;
        if i > 0 {
          assert t[1..][i - 1] == x;
        }
      }
    }
  }

  // ---------------------------------------------------------------------
  // The stop map (`HashMap<Double, Color>` filled by `forEach`).

  function Offsets<C>(stops: seq<Stop<C>>): set<real>
  {
    set i | 0 <= i < |stops| :: stops[i].offset
  }

  /** The map after putting every stop in list order: a later stop with the
      same offset replaces an earlier one. */
  function StopMap<C>(stops: seq<Stop<C>>): (m: map<real, C>)
    ensures m.Keys == Offsets(stops)
  {
    if stops == [] then map[]
    else
      var init := stops[..|stops| - 1];
      var last := stops[|stops| - 1];
      assert Offsets(stops) == Offsets(init) + {last.offset} by {
        forall f | f in Offsets(stops) ensures f in Offsets(init) + {last.offset} {
          var i :| 0 <= i < |stops| && stops[i].offset == f;
          if i < |stops| - 1 { assert init[i] == stops[i]; }
        }
        forall f | f in Offsets(init) ensures f in Offsets(stops) {
          var i :| 0 <= i < |init| && init[i].offset == f;
          assert stops[i] == init[i];
        }
      }
      StopMap(init)[last.offset := last.color]
  }

  lemma NoOffsetsOnlyWhenEmpty<C>(stops: seq<Stop<C>>)
    ensures Offsets(stops) == {} <==> stops == []
  {
    if stops != [] {
      assert stops[0].offset in Offsets(stops);
    }
  }

  /** Duplicate offsets collapse to one entry, whose color is that of the
      last stop carrying the offset. */
  lemma {:induction false} StopMapLastWins<C>(stops: seq<Stop<C>>, i: nat)
    requires i < |stops|
    requires forall j :: i < j < |stops| ==> stops[j].offset != stops[i].offset
    ensures stops[i].offset in StopMap(stops)
    ensures StopMap(stops)[stops[i].offset] == stops[i].color
  {
    if i < |stops| - 1 {
      var init := stops[..|stops| - 1];
      assert init[i] == stops[i];
      StopMapLastWins(init, i);
    }
  }

  // ---------------------------------------------------------------------
  // Padding and re-phasing.

  /** Adds a 1.0 entry with the color of the highest fraction when that is
      below 1, then a 0.0 entry with the color of the (new) lowest fraction
      when that is above 0. */
  function Padded<C>(m: map<real, C>): map<real, C>
    requires m != map[]
  {
    var hi := Greatest(m.Keys);
    var m1 := if hi < 1.0 then m[1.0 := m[hi]] else m;
    var lo := Least(m1.Keys);
    if lo > 0.0 then m1[0.0 := m1[lo]] else m1
  }

  /** `fraction * 0.778 - 0.389`, plus 1 when negative. */
  function Rephase(f: real): (r: real)
    ensures 0.0 <= f <= 1.0 ==> 0.0 <= r < 1.0
  {
    var offset := f * Range - HalfRange;
    if offset < 0.0 then 1.0 + offset else offset
  }

  /** One re-phased stop per fraction, in the order of `fractions`. */
  function RephasedStops<C>(p: map<real, C>, fractions: seq<real>): (r: seq<Stop<C>>)
    requires forall j :: 0 <= j < |fractions| ==> fractions[j] in p
    ensures |r| == |fractions|
    ensures forall j :: 0 <= j < |r| ==> r[j] == Stop(Rephase(fractions[j]), p[fractions[j]])
  {
    seq(|fractions|, j requires 0 <= j < |fractions| => Stop(Rephase(fractions[j]), p[fractions[j]]))
  }

  /** `STOPS.forEach(stop -> stopMap.put(stop.getOffset(), stop.getColor()))`. */
  method FillStopMap<C>(stops: seq<Stop<C>>) returns (stopMap: map<real, C>)
    ensures stopMap == StopMap(stops)
  {
    stopMap := map[];
    for i := 0 to |stops|
      invariant stopMap == StopMap(stops[..i])
    {
      assert stops[..i + 1][..i] == stops[..i];
      stopMap := stopMap[stops[i].offset := stops[i].color];
    }
    assert stops[..|stops|] == stops;
  }

  /** The two padding steps of `reorderStops`, on the map and on the
      sorted set side by side. */
  method PadEnds<C>(m: map<real, C>, fractions: set<real>) returns (stopMap: map<real, C>, sortedFractions: set<real>)
    requires fractions == m.Keys && fractions != {}
    ensures stopMap == Padded(m) && sortedFractions == stopMap.Keys
  {
    stopMap, sortedFractions := m, fractions;
    var last := Greatest(sortedFractions);
    if last < 1.0 {
      stopMap := stopMap[1.0 := stopMap[last]];
      sortedFractions := sortedFractions + {1.0};
      assert sortedFractions == stopMap.Keys by {
        forall x ensures x in sortedFractions <==> x in stopMap.Keys { }
      }
    }
    var first := Least(sortedFractions);
    if first > 0.0 {
      stopMap := stopMap[0.0 := stopMap[first]];
      sortedFractions := sortedFractions + {0.0};
      assert sortedFractions == stopMap.Keys by {
        forall x ensures x in sortedFractions <==> x in stopMap.Keys { }
      }
    }
  }

  /** The closing `for` loop of `reorderStops`: one stop per fraction, at
      the re-phased offset, with the fraction's color. */
  method EmitRephased<C>(stopMap: map<real, C>, fractions: seq<real>) returns (sortedStops: seq<Stop<C>>)
    requires forall j :: 0 <= j < |fractions| ==> fractions[j] in stopMap
    ensures sortedStops == RephasedStops(stopMap, fractions)
  {
    sortedStops := [];
    for i := 0 to |fractions|
      invariant |sortedStops| == i
      invariant forall j :: 0 <= j < i ==> sortedStops[j] == Stop(Rephase(fractions[j]), stopMap[fractions[j]])
    {
      var offset := fractions[i] * Range - HalfRange;
      offset := if offset < 0.0 then 1.0 + offset else offset;
      sortedStops := sortedStops + [Stop(offset, stopMap[fractions[i]])];
    }
    ghost var expected := RephasedStops(stopMap, fractions);
    assert |sortedStops| == |expected|;
    assert forall j :: 0 <= j < |expected| ==> sortedStops[j] == expected[j];
  }

  /** Pads the stop map, then emits one re-phased stop per fraction in
      ascending order. */
  function PadAndRephase<C>(m: map<real, C>): (r: seq<Stop<C>>)
    requires m != map[]
    ensures |r| == |Padded(m).Keys|
  {
    var p := Padded(m);
    RephasedStops(p, Ascending(p.Keys))
  }

  /** The list `reorderStops` returns, for a non-empty input. */
  function ReorderedStops<C>(stops: seq<Stop<C>>): (r: seq<Stop<C>>)
    requires stops != []
    ensures StopMap(stops) != map[] && |r| == |Padded(StopMap(stops)).Keys|
  {
    NoOffsetsOnlyWhenEmpty(stops);
    PadAndRephase(StopMap(stops))
  }

  /** The imperative method: fill the map, pad it and the sorted set,
      then emit one re-phased stop per fraction in ascending order. An
      empty input makes `last()` throw; that outcome is `None`. */
  method ReorderStops<C>(stops: seq<Stop<C>>) returns (r: Option<seq<Stop<C>>>)
    ensures stops == [] <==> r == None
    ensures stops != [] ==> r == Some(ReorderedStops(stops))
  {
    var stopMap := FillStopMap(stops);
    var sortedFractions := stopMap.Keys;
    NoOffsetsOnlyWhenEmpty(stops);
    if sortedFractions == {} {
      return None;
    }
    stopMap, sortedFractions := PadEnds(stopMap, sortedFractions);
    var fractions := Ascending(sortedFractions);
    assert forall j :: 0 <= j < |fractions| ==> fractions[j] in stopMap;
    var sortedStops := EmitRephased(stopMap, fractions);
    r := Some(sortedStops);
  }

  // ---------------------------------------------------------------------
  // Properties of the outcome.

  lemma LeastIs(s: set<real>, x: real)
    requires x in s && forall y :: y in s ==> x <= y
    ensures Least(s) == x
  {
  }

  lemma GreatestIs(s: set<real>, x: real)
    requires x in s && forall y :: y in s ==> y <= x
    ensures Greatest(s) == x
  {
  }

  /** Padding keeps every existing entry with its color and adds at most a
      1.0 entry with the highest fraction's color and a 0.0 entry with the
      lowest fraction's color. */
  lemma PaddedEntries<C>(m: map<real, C>)
    requires m != map[]
    ensures forall f :: f in m ==> f in Padded(m) && Padded(m)[f] == m[f]
    ensures Padded(m).Keys == m.Keys
      + (if Greatest(m.Keys) < 1.0 then {1.0} else {})
      + (if Least(m.Keys) > 0.0 then {0.0} else {})
    ensures Greatest(m.Keys) < 1.0 ==> 1.0 !in m && Padded(m)[1.0] == m[Greatest(m.Keys)]
    ensures Least(m.Keys) > 0.0 ==> 0.0 !in m && Padded(m)[0.0] == m[Least(m.Keys)]
  {
    var hi := Greatest(m.Keys);
    var lo := Least(m.Keys);
    var m1 := if hi < 1.0 then m[1.0 := m[hi]] else m;
    if hi < 1.0 {
      forall f | f in m1.Keys ensures lo <= f {
        if f != 1.0 { assert f in m.Keys; }
      }
      LeastIs(m1.Keys, lo);
    }
    assert Least(m1.Keys) == lo;
    var p := Padded(m);
    forall f | f in p.Keys ensures f in m.Keys
      + (if hi < 1.0 then {1.0} else {}) + (if lo > 0.0 then {0.0} else {}) {
    }
    forall f | f in m.Keys
      + (if hi < 1.0 then {1.0} else {}) + (if lo > 0.0 then {0.0} else {}) ensures f in p.Keys {
    }
  }

  /** Offsets inside the unit interval are padded to exactly 0.0 and 1.0. */
  lemma PaddedUnitInterval<C>(m: map<real, C>)
    requires m != map[]
    requires forall f :: f in m ==> 0.0 <= f <= 1.0
    ensures forall f :: f in Padded(m) ==> 0.0 <= f <= 1.0
    ensures Least(Padded(m).Keys) == 0.0 && Greatest(Padded(m).Keys) == 1.0
  {
    PaddedEntries(m);
    var p := Padded(m);
    assert 0.0 in p.Keys by {
      if Least(m.Keys) <= 0.0 { assert Least(m.Keys) == 0.0; }
    }
    assert 1.0 in p.Keys by {
      if Greatest(m.Keys) >= 1.0 { assert Greatest(m.Keys) == 1.0; }
    }
    assert forall f :: f in p.Keys ==> 0.0 <= f <= 1.0;
    LeastIs(p.Keys, 0.0);
    GreatestIs(p.Keys, 1.0);
  }

  /** The last element of a strictly increasing sequence holding `s` is
      the greatest element of `s`. */
  lemma LastIsGreatest(s: set<real>, t: seq<real>)
    requires StrictlyIncreasing(t) && t != []
    requires forall x :: x in t <==> x in s
    ensures s != {} && Greatest(s) == t[|t| - 1]
  {
    assert t[|t| - 1] in t;
    forall x | x in s ensures x <= t[|t| - 1] {
      var i :| 0 <= i < |t| && t[i] == x;
    }
    GreatestIs(s, t[|t| - 1]);
  }

  /** The iteration order starts at `first()` and ends at `last()`. */
  lemma AscendingEnds(s: set<real>)
    requires s != {}
    ensures Ascending(s) != []
    ensures Ascending(s)[0] == Least(s) && Ascending(s)[|Ascending(s)| - 1] == Greatest(s)
  {
    var t := Ascending(s);
    HeadIsLeast(s, t);
    LastIsGreatest(s, t);
  }

  /** The offsets given in the source's comment. */
  lemma RephaseDocumentedPoints()
    ensures Rephase(0.0) == 0.611 && Rephase(0.5) == 0.0 && Rephase(1.0) == 0.389
  {
  }

  /** On [0,1]: the lower half lands in [0.611,1), the upper half in
      [0,0.389], each half in order; nothing lands in (0.389,0.611). */
  lemma RephaseHalves(f: real, g: real)
    requires 0.0 <= f <= 1.0 && 0.0 <= g <= 1.0
    ensures f < 0.5 ==> 0.611 <= Rephase(f) < 1.0
    ensures 0.5 <= f ==> 0.0 <= Rephase(f) <= 0.389
    ensures f < g < 0.5 || 0.5 <= f < g ==> Rephase(f) < Rephase(g)
  {
  }

  /** One output stop per padded fraction, so the length is the number of
      distinct input offsets plus the padding entries. */
  lemma ReorderedLength<C>(stops: seq<Stop<C>>)
    requires stops != []
    ensures StopMap(stops) != map[] && var m := StopMap(stops);
      |ReorderedStops(stops)| == |Offsets(stops)|
        + (if Greatest(m.Keys) < 1.0 then 1 else 0)
        + (if Least(m.Keys) > 0.0 then 1 else 0)
  {
    NoOffsetsOnlyWhenEmpty(stops);
    var m := StopMap(stops);
    PaddedEntries(m);
    var hi, lo := Greatest(m.Keys), Least(m.Keys);
    var withTop := m.Keys + (if hi < 1.0 then {1.0} else {});
    assert |withTop| == |m.Keys| + (if hi < 1.0 then 1 else 0);
    if lo > 0.0 {
      assert 0.0 !in withTop;
    }
    assert |Padded(m).Keys| == |withTop| + (if lo > 0.0 then 1 else 0);
  }

  /** Input offsets in [0,1] give stop-map keys in [0,1]. */
  lemma StopMapInUnit<C>(stops: seq<Stop<C>>)
    requires forall i :: 0 <= i < |stops| ==> 0.0 <= stops[i].offset <= 1.0
    ensures forall f :: f in StopMap(stops) ==> 0.0 <= f <= 1.0
  {
    forall f | f in StopMap(stops) ensures 0.0 <= f <= 1.0 {
      var i :| 0 <= i < |stops| && stops[i].offset == f;
    }
  }

  /** For keys in [0,1] the padded map holds 0.0 with the lowest key's
      color and 1.0 with the highest key's color. */
  lemma PaddedEndColors<C>(m: map<real, C>)
    requires m != map[]
    requires forall f :: f in m ==> 0.0 <= f <= 1.0
    ensures 0.0 in Padded(m) && Padded(m)[0.0] == m[Least(m.Keys)]
    ensures 1.0 in Padded(m) && Padded(m)[1.0] == m[Greatest(m.Keys)]
  {
    PaddedEntries(m);
    if Least(m.Keys) <= 0.0 { assert Least(m.Keys) == 0.0; }
    if Greatest(m.Keys) >= 1.0 { assert Greatest(m.Keys) == 1.0; }
  }

  /** Re-phasing the fractions of a map whose keys run from 0.0 to 1.0
      starts at 0.611 with the color at 0.0 and ends at 0.389 with the
      color at 1.0. */
  lemma RephasedEnds<C>(p: map<real, C>)
    requires p != map[] && Least(p.Keys) == 0.0 && Greatest(p.Keys) == 1.0
    ensures 0.0 in p && 1.0 in p
    ensures EndsWith(RephasedStops(p, Ascending(p.Keys)), Stop(Rephase(0.0), p[0.0]), Stop(Rephase(1.0), p[1.0]))
  {
    AscendingEnds(p.Keys);
    var fr := Ascending(p.Keys);
    assert |fr| >= 2 by {
      assert fr[0] != fr[|fr| - 1];
    }
  }

  /** `out` has at least two stops, the first being `first` and the last `last`. */
  ghost predicate EndsWith<C>(out: seq<Stop<C>>, first: Stop<C>, last: Stop<C>)
  {
    |out| >= 2 && out[0] == first && out[|out| - 1] == last
  }

  /** Padding a map with keys in [0,1] and re-phasing it starts at 0.611
      with the lowest key's color and ends at 0.389 with the highest key's. */
  lemma PaddedRephasedEnds<C>(m: map<real, C>)
    requires m != map[]
    requires forall f :: f in m ==> 0.0 <= f <= 1.0
    ensures EndsWith(PadAndRephase(m), Stop(Rephase(0.0), m[Least(m.Keys)]), Stop(Rephase(1.0), m[Greatest(m.Keys)]))
  {
    PaddedUnitInterval(m);
    PaddedEndColors(m);
    var p := Padded(m);
    RephasedEnds(p);
    assert PadAndRephase(m) == RephasedStops(p, Ascending(p.Keys));
  }

  /** For offsets in [0,1] the first output stop comes from fraction 0.0
      and carries the lowest input offset's color; the last comes from 1.0
      and carries the highest one's color. */
  lemma ReorderedEnds<C>(stops: seq<Stop<C>>)
    requires stops != []
    requires forall i :: 0 <= i < |stops| ==> 0.0 <= stops[i].offset <= 1.0
    ensures StopMap(stops) != map[] && var m := StopMap(stops);
      EndsWith(ReorderedStops(stops), Stop(Rephase(0.0), m[Least(m.Keys)]), Stop(Rephase(1.0), m[Greatest(m.Keys)]))
  {
    NoOffsetsOnlyWhenEmpty(stops);
    var m := StopMap(stops);
    StopMapInUnit(stops);
    PaddedRephasedEnds(m);
    assert ReorderedStops(stops) == PadAndRephase(m);
  }

  /** The output splits at `k` into two ascending runs: the fractions below
      one half, re-phased into [0.611,1), then the rest, in [0,0.389]. The
      only descent is between positions k-1 and k. */
  predicate TwoAscendingRuns<C>(out: seq<Stop<C>>, k: int)
  {
    && 0 < k < |out|
    && (forall j :: 0 <= j < k ==> 0.611 <= out[j].offset < 1.0)
    && (forall j :: k <= j < |out| ==> 0.0 <= out[j].offset <= 0.389)
    && (forall i, j :: 0 <= i < j < k ==> out[i].offset < out[j].offset)
    && (forall i, j :: k <= i < j < |out| ==> out[i].offset < out[j].offset)
  }

  lemma RunsOfFractions<C>(p: map<real, C>, fr: seq<real>)
    requires StrictlyIncreasing(fr) && fr != []
    requires fr[0] < 0.5 <= fr[|fr| - 1]
    requires forall j :: 0 <= j < |fr| ==> fr[j] in p && 0.0 <= fr[j] <= 1.0
    ensures exists k :: (TwoAscendingRuns(RephasedStops(p, fr), k)
      && forall j :: 0 <= j < |fr| ==> (j < k <==> fr[j] < 0.5))
  {
    var out := RephasedStops(p, fr);
    var k := 0;
    while k < |fr| && fr[k] < 0.5
      invariant 0 <= k <= |fr|
      invariant forall j :: 0 <= j < k ==> fr[j] < 0.5
    {
      k := k + 1;
    }
    forall j | 0 <= j < |fr| ensures j < k <==> fr[j] < 0.5 {
      if j > k { assert fr[k] < fr[j]; }
    }
    forall j | 0 <= j < |out|
      ensures j < k ==> 0.611 <= out[j].offset < 1.0
      ensures k <= j ==> 0.0 <= out[j].offset <= 0.389
    {
      RephaseHalves(fr[j], fr[j]);
    }
    forall i, j | 0 <= i < j < |out| && (j < k || k <= i)
      ensures out[i].offset < out[j].offset
    {
      RephaseHalves(fr[i], fr[j]);
    }
    assert TwoAscendingRuns(out, k);
  }

  /** Padding a map with keys in [0,1] and re-phasing it gives two
      ascending runs. */
  lemma PaddedRephasedRuns<C>(m: map<real, C>)
    requires m != map[]
    requires forall f :: f in m ==> 0.0 <= f <= 1.0
    ensures exists k :: TwoAscendingRuns(PadAndRephase(m), k)
  {
    PaddedUnitInterval(m);
    var p := Padded(m);
    AscendingEnds(p.Keys);
    var fr := Ascending(p.Keys);
    forall j | 0 <= j < |fr| ensures fr[j] in p && 0.0 <= fr[j] <= 1.0 {
      assert fr[j] in fr;
    }
    RunsOfFractions(p, fr);
    assert PadAndRephase(m) == RephasedStops(p, fr);
  }

  /** For offsets in [0,1] the re-phased list is not sorted by offset: it
      is two ascending runs with exactly one descent between them. */
  lemma ReorderedRuns<C>(stops: seq<Stop<C>>)
    requires stops != []
    requires forall i :: 0 <= i < |stops| ==> 0.0 <= stops[i].offset <= 1.0
    ensures exists k :: TwoAscendingRuns(ReorderedStops(stops), k)
  {
    NoOffsetsOnlyWhenEmpty(stops);
    var m := StopMap(stops);
    StopMapInUnit(stops);
    PaddedRephasedRuns(m);
    assert ReorderedStops(stops) == PadAndRephase(m);
  }
}
