/** Marker snapshots and what the robot derives from them: category filters,
    the closest marker, the marker nearest a bearing, the ground-plane
    distance, the camera resolution setting and token grouping. */
module Vision {
  import opened Util

  /** The marker categories reported by the camera library. */
  datatype MarkerType = Arena | Robot | Slot | TokenTop | TokenBottom | TokenSide

  /** One marker observation of one scan: identity code, category, printed
      size, straight-line distance, bearing `rot_y` and the marker's own
      facing `orientation.rot_y`. */
  datatype Marker = Marker(code: int, kind: MarkerType, size: real, dist: real,
                           rotY: real, orientRotY: real)

  /** Height of the camera above the ground, in meters. */
  const CameraHeight: real := 0.376

  // ---------------------------------------------------------------------
  // MarkerFilter
  // ---------------------------------------------------------------------

  /** MARKER_FILTERS, keyed by the upper-cased filter name. */
  function FilterTable(name: string): (r: Option<seq<MarkerType>>)
    ensures r.Some? ==> r.value != []
  {
    var key := Upper(name);
    if key == "TOKENS" then Some([TokenTop, TokenBottom, TokenSide])
    else if key == "ROBOTS" then Some([Robot])
    else if key == "SLOTS" then Some([Slot])
    else if key == "WALLS" then Some([Arena])
    else None
  }

  /** The category name a marker type is listed under. */
  function CategoryOf(t: MarkerType): string {
    match t
    case TokenTop => "TOKENS"
    case TokenBottom => "TOKENS"
    case TokenSide => "TOKENS"
    case Robot => "ROBOTS"
    case Slot => "SLOTS"
    case Arena => "WALLS"
  }

  lemma TableByCategory(name: string, t: MarkerType)
    requires FilterTable(name).Some?
    ensures t in FilterTable(name).value <==> CategoryOf(t) == Upper(name)
    ensures forall i, j :: 0 <= i < j < |FilterTable(name).value| ==>
      FilterTable(name).value[i] != FilterTable(name).value[j]
  {
  }

  /** The table lists of the recognised names, concatenated in argument order. */
  function Included(names: seq<string>): seq<MarkerType> {
    if names == [] then []
    else
      var last := names[|names| - 1];
      Included(names[..|names| - 1]) + (if FilterTable(last).Some? then FilterTable(last).value else [])
  }

  /** MarkerFilter.include(*types) */
  method Include(names: seq<string>) returns (accept: seq<MarkerType>)
    ensures accept == Included(names)
  {
    accept := [];
    for i := 0 to |names|
      invariant accept == Included(names[..i])
    {
      assert names[..i + 1][..i] == names[..i];
      var entry := FilterTable(names[i]);
      if entry.Some? {
        accept := accept + entry.value;
      }
    }
    assert names[..|names|] == names;
  }

  /** A type is included exactly when some recognised name lists it; unknown
      names contribute nothing. */
  lemma {:induction false} IncludedMembers(names: seq<string>, t: MarkerType)
    ensures t in Included(names) <==>
      exists i :: 0 <= i < |names| && FilterTable(names[i]).Some? && CategoryOf(t) == Upper(names[i])
  {
    if names != [] {
      var p := names[..|names| - 1];
      var last := names[|names| - 1];
      IncludedMembers(p, t);
      if FilterTable(last).Some? {
        TableByCategory(last, t);
      }
      if exists i :: 0 <= i < |names| && FilterTable(names[i]).Some? && CategoryOf(t) == Upper(names[i]) {
        var i :| 0 <= i < |names| && FilterTable(names[i]).Some? && CategoryOf(t) == Upper(names[i]);
        if i < |p| {
          assert p[i] == names[i];
        }
      }
      if exists i :: 0 <= i < |p| && FilterTable(p[i]).Some? && CategoryOf(t) == Upper(p[i]) {
        var i :| 0 <= i < |p| && FilterTable(p[i]).Some? && CategoryOf(t) == Upper(p[i]);
        assert names[i] == p[i];
      }
    }
  }

  /** Every marker type, in the (implementation-defined) order in which the
      table's value lists are concatenated. */
  const AllTypes: seq<MarkerType> := [TokenTop, TokenBottom, TokenSide, Robot, Slot, Arena]

  /** Python's `list.remove`: drop the first occurrence, ValueError if absent. */
  function RemoveFirst(s: seq<MarkerType>, x: MarkerType): (r: Result<seq<MarkerType>>)
    ensures r.Ok? <==> x in s
    ensures r.Err? ==> r.error == ValueError
    ensures r.Ok? ==> multiset(r.value) == multiset(s) - multiset{x}
  {
    if s == [] then Err(ValueError)
    else if s[0] == x then
      assert s == [s[0]] + s[1..];
      Ok(s[1..])
    else
      match RemoveFirst(s[1..], x)
      case Err(e) => Err(e)
      case Ok(rest) =>
        assert s == [s[0]] + s[1..];
        Ok([s[0]] + rest)
  }

  /** Remove one occurrence of each listed type, in order. */
  function RemoveEach(s: seq<MarkerType>, xs: seq<MarkerType>): Result<seq<MarkerType>>
    decreases |xs|
  {
    if xs == [] then Ok(s)
    else match RemoveFirst(s, xs[0])
      case Err(e) => Err(e)
      case Ok(rest) => RemoveEach(rest, xs[1..])
  }

  /** What MarkerFilter.exclude(*names) returns or raises. */
  function Excluded(names: seq<string>): Result<seq<MarkerType>> {
    if names == [] then Ok(AllTypes)
    else
      var last := names[|names| - 1];
      match Excluded(names[..|names| - 1])
      case Err(e) => Err(e)
      case Ok(acc) => if FilterTable(last).Some? then RemoveEach(acc, FilterTable(last).value) else Ok(acc)
  }

  /** MarkerFilter.exclude(*types) */
  method Exclude(names: seq<string>) returns (r: Result<seq<MarkerType>>)
    ensures r == Excluded(names)
  {
    var accept := AllTypes;
    for i := 0 to |names|
      invariant Excluded(names[..i]) == Ok(accept)
    {
      var upto := names[..i + 1];
      assert upto[..|upto| - 1] == names[..i] && upto[|upto| - 1] == names[i];
      var entry := FilterTable(names[i]);
      assert Excluded(upto) == if entry.Some? then RemoveEach(accept, entry.value) else Ok(accept);
      if entry.Some? {
        var removed := RemoveAll(accept, entry.value);
        if removed.Err? {
          ErrorPersists(names, i + 1);
          return Err(removed.error);
        }
        accept := removed.value;
      }
    }
    assert names[..|names|] == names;
    return Ok(accept);
  }

  /** Once a prefix of the names fails, the whole call fails the same way. */
  lemma {:induction false} ErrorPersists(names: seq<string>, i: nat)
    requires i <= |names| && Excluded(names[..i]).Err?
    ensures Excluded(names) == Excluded(names[..i])
    decreases |names| - i
  {
    if i == |names| {
      assert names[..i] == names;
    } else {
      var upto := names[..i + 1];
      assert upto[..|upto| - 1] == names[..i];
      ErrorPersists(names, i + 1);
    }
  }

  /** The inner loop of exclude: `accept.remove(m)` for each listed type. */
  method RemoveAll(s: seq<MarkerType>, xs: seq<MarkerType>) returns (r: Result<seq<MarkerType>>)
    ensures r == RemoveEach(s, xs)
  {
    var accept := s;
    for j := 0 to |xs|
      invariant RemoveEach(s, xs) == RemoveEach(accept, xs[j..])
    {
      assert xs[j..][0] == xs[j];
      assert xs[j..][1..] == xs[j + 1..];
      var removed := RemoveFirst(accept, xs[j]);
      if removed.Err? {
        return Err(removed.error);
      }
      accept := removed.value;
    }
    assert xs[|xs|..] == [];
    return Ok(accept);
  }

  /** No recognised name in `p` names category `key`. */
  ghost predicate KeyFresh(p: seq<string>, key: string) {
    forall i :: 0 <= i < |p| && FilterTable(p[i]).Some? ==> Upper(p[i]) != key
  }

  /** The recognised names name pairwise different categories. */
  ghost predicate DistinctCategories(names: seq<string>) {
    forall i, j :: 0 <= i < j < |names| && FilterTable(names[i]).Some? && FilterTable(names[j]).Some? ==>
      Upper(names[i]) != Upper(names[j])
  }

  lemma DistinctExtend(names: seq<string>)
    requires names != []
    ensures var p := names[..|names| - 1];
      var last := names[|names| - 1];
      DistinctCategories(names) <==>
        DistinctCategories(p) && (FilterTable(last).Some? ==> KeyFresh(p, Upper(last)))
  {
    var p := names[..|names| - 1];
    assert forall i :: 0 <= i < |p| ==> p[i] == names[i];
  }

  /** What the previous names left in `accept`: the types not yet excluded. */
  ghost predicate Remaining(acc: seq<MarkerType>, p: seq<string>) {
    multiset(acc) == multiset(AllTypes) - multiset(Included(p))
  }

  /** Naming a category a second time fails on its first type. */
  lemma RepeatFails(acc: seq<MarkerType>, p: seq<string>, last: string)
    requires Remaining(acc, p) && FilterTable(last).Some? && !KeyFresh(p, Upper(last))
    ensures RemoveEach(acc, FilterTable(last).value) == Err(ValueError)
  {
    var types := FilterTable(last).value;
    var t := types[0];
    var i :| 0 <= i < |p| && FilterTable(p[i]).Some? && Upper(p[i]) == Upper(last);
    TableByCategory(last, t);
    assert CategoryOf(t) == Upper(p[i]);
    IncludedMembers(p, t);
    assert t in Included(p);
    TakenType(acc, p, t);
    assert RemoveFirst(acc, t) == Err(ValueError);
  }

  /** A type of an already named category is gone from `accept`. */
  lemma TakenType(acc: seq<MarkerType>, p: seq<string>, t: MarkerType)
    requires Remaining(acc, p) && t in Included(p)
    ensures t !in acc
  {
    assert multiset(Included(p))[t] >= 1;
    CountInAll(t);
    assert multiset(acc)[t] == 0;
  }

  /** A type of a category not named yet is in `accept` exactly once. */
  lemma UntakenType(acc: seq<MarkerType>, p: seq<string>, t: MarkerType)
    requires Remaining(acc, p) && t !in Included(p)
    ensures multiset(acc)[t] == 1
  {
    assert multiset(Included(p))[t] == 0;
    CountInAll(t);
  }

  /** Naming a new category removes exactly its types. */
  lemma FreshSucceeds(acc: seq<MarkerType>, p: seq<string>, last: string)
    requires Remaining(acc, p) && FilterTable(last).Some? && KeyFresh(p, Upper(last))
    ensures RemoveEach(acc, FilterTable(last).value).Ok?
    ensures Remaining(RemoveEach(acc, FilterTable(last).value).value, p + [last])
  {
    var types := FilterTable(last).value;
    forall t | t in types ensures multiset(acc)[t] == 1 {
      FreshOnce(acc, p, last, t);
    }
    TableByCategory(last, types[0]);
    RemoveDistinct(acc, types);
    var q := p + [last];
    assert q[..|q| - 1] == p;
    assert Included(q) == Included(p) + types;
    var rest := RemoveEach(acc, types).value;
    var all := multiset(AllTypes);
    assert multiset(rest) == (all - multiset(Included(p))) - multiset(types);
    assert multiset(Included(q)) == multiset(Included(p)) + multiset(types);
    MultisetMinusMinus(all, multiset(Included(p)), multiset(types));
  }

  /** A type of a category not named before is still in `accept`, once. */
  lemma FreshOnce(acc: seq<MarkerType>, p: seq<string>, last: string, t: MarkerType)
    requires Remaining(acc, p) && FilterTable(last).Some? && KeyFresh(p, Upper(last))
    requires t in FilterTable(last).value
    ensures multiset(acc)[t] == 1
  {
    TableByCategory(last, t);
    assert CategoryOf(t) == Upper(last);
    IncludedMembers(p, t);
    assert t !in Included(p) by {
      forall i | 0 <= i < |p| && FilterTable(p[i]).Some?
        ensures CategoryOf(t) != Upper(p[i])
      {
      }
    }
    UntakenType(acc, p, t);
  }

  lemma MultisetMinusMinus(a: multiset<MarkerType>, b: multiset<MarkerType>, c: multiset<MarkerType>)
    ensures (a - b) - c == a - (b + c)
  {
    forall t ensures ((a - b) - c)[t] == (a - (b + c))[t] {
    }
  }

  /** exclude succeeds exactly when no category is named twice (in any
      letter case), and then returns every type except those of the named
      categories; otherwise it raises ValueError. */
  lemma {:induction false} ExcludedMeaning(names: seq<string>)
    ensures Excluded(names).Ok? <==> DistinctCategories(names)
    ensures Excluded(names).Ok? ==> Remaining(Excluded(names).value, names)
    ensures Excluded(names).Err? ==> Excluded(names).error == ValueError
  {
    if names != [] {
      var p := names[..|names| - 1];
      var last := names[|names| - 1];
      assert names == p + [last];
      ExcludedMeaning(p);
      DistinctExtend(names);
      if Excluded(p).Ok? {
        var acc := Excluded(p).value;
        if FilterTable(last).Some? {
          if KeyFresh(p, Upper(last)) {
            FreshSucceeds(acc, p, last);
          } else {
            RepeatFails(acc, p, last);
          }
        } else {
          assert Included(names) == Included(p);
        }
      }
    }
  }
  lemma CountInAll(t: MarkerType)
    ensures multiset(AllTypes)[t] == 1
  {
  }

  /** Removing pairwise different types that each occur once succeeds and
      takes exactly those types away. */
  lemma {:induction false} RemoveDistinct(s: seq<MarkerType>, xs: seq<MarkerType>)
    requires forall i, j :: 0 <= i < j < |xs| ==> xs[i] != xs[j]
    requires forall x :: x in xs ==> multiset(s)[x] == 1
    ensures RemoveEach(s, xs).Ok?
    ensures multiset(RemoveEach(s, xs).value) == multiset(s) - multiset(xs)
    decreases |xs|
  {
    if xs != [] {
      var x := xs[0];
      var tail := xs[1..];
      assert xs == [x] + tail;
      DistinctTail(xs);
      assert multiset(s)[x] == 1;
      var rest := RemoveFirst(s, x).value;
      OnceAfterRemoval(s, x, rest, xs);
      RemoveDistinct(rest, tail);
      assert RemoveEach(s, xs) == RemoveEach(rest, tail);
      assert multiset(xs) == multiset{x} + multiset(tail);
      MultisetMinusMinus(multiset(s), multiset{x}, multiset(tail));
    }
  }

  lemma DistinctTail(xs: seq<MarkerType>)
    requires xs != [] && forall i, j :: 0 <= i < j < |xs| ==> xs[i] != xs[j]
    ensures forall i, j :: 0 <= i < j < |xs[1..]| ==> xs[1..][i] != xs[1..][j]
    ensures xs[0] !in xs[1..]
  {
    forall i, j | 0 <= i < j < |xs[1..]| ensures xs[1..][i] != xs[1..][j] {
      assert xs[1..][i] == xs[i + 1] && xs[1..][j] == xs[j + 1];
    }
  }

  /** The types after the first still occur once once the first is removed. */
  lemma OnceAfterRemoval(s: seq<MarkerType>, x: MarkerType, rest: seq<MarkerType>, xs: seq<MarkerType>)
    requires xs != [] && x == xs[0] && x !in xs[1..]
    requires multiset(rest) == multiset(s) - multiset{x}
    requires forall y :: y in xs ==> multiset(s)[y] == 1
    ensures forall y :: y in xs[1..] ==> multiset(rest)[y] == 1
  {
    forall y | y in xs[1..] ensures multiset(rest)[y] == 1 {
      assert y in xs && y != x;
    }
  }

  /** Markers whose type is in `types`, in scan order (the `_filter` of get_markers). */
  function FilterKinds(ms: seq<Marker>, types: seq<MarkerType>): (r: seq<Marker>)
    ensures |r| <= |ms|
    ensures forall m :: m in r <==> m in ms && m.kind in types
  {
    if ms == [] then []
    else (if ms[0].kind in types then [ms[0]] else []) + FilterKinds(ms[1..], types)
  }

  /** `filter` keeps order and multiplicity: it distributes over
      concatenation (with FilterKindsOne, this fixes the result). */
  lemma {:induction false} FilterKindsAppend(a: seq<Marker>, b: seq<Marker>, types: seq<MarkerType>)
    ensures FilterKinds(a + b, types) == FilterKinds(a, types) + FilterKinds(b, types)
  {
    if a != [] {
      FilterKindsAppend(a[1..], b, types);
      assert (a + b)[1..] == a[1..] + b;
    } else {
      assert a + b == b;
    }
  }

  /** A single marker survives `filter` exactly when its type is listed. */
  lemma FilterKindsOne(m: Marker, types: seq<MarkerType>)
    ensures FilterKinds([m], types) == (if m.kind in types then [m] else [])
  {
    assert [m][1..] == [];
  }

  // ---------------------------------------------------------------------
  // Running-best selection (get_closest, get_rotation_nearest)
  // ---------------------------------------------------------------------

  /** k is the earliest position of a minimal key among keys[lo..]. */
  ghost predicate EarliestMin(keys: seq<real>, lo: nat, k: nat) {
    lo <= k < |keys| &&
    (forall j :: lo <= j < |keys| ==> keys[k] <= keys[j]) &&
    (forall j :: lo <= j < k ==> keys[j] > keys[k])
  }

  /** The loop shared by both selections: walk keys[i..], replacing the
      running best only on a strictly smaller key. */
  function ScanBest(keys: seq<real>, i: nat, bestKey: real, best: nat): nat
    decreases |keys| - i
  {
    if i >= |keys| then best
    else if keys[i] < bestKey then ScanBest(keys, i + 1, keys[i], i)
    else ScanBest(keys, i + 1, bestKey, best)
  }

  /** If something in keys[i..] beats the running best, the walk ends on the
      earliest minimum of keys[i..]; otherwise it keeps the running best. */
  lemma {:induction false} ScanBestResult(keys: seq<real>, i: nat, bestKey: real, best: nat)
    requires i <= |keys|
    ensures (exists j :: i <= j < |keys| && keys[j] < bestKey) ==> EarliestMin(keys, i, ScanBest(keys, i, bestKey, best))
    ensures (forall j :: i <= j < |keys| ==> keys[j] >= bestKey) ==> ScanBest(keys, i, bestKey, best) == best
    decreases |keys| - i
  {
    if i < |keys| {
      var r := ScanBest(keys, i, bestKey, best);
      if keys[i] < bestKey {
        ScanBestResult(keys, i + 1, keys[i], i);
        if !(exists j :: i + 1 <= j < |keys| && keys[j] < keys[i]) {
          assert r == i;
        }
      } else {
        ScanBestResult(keys, i + 1, bestKey, best);
      }
    }
  }

  function Dists(ms: seq<Marker>): (d: seq<real>)
    ensures |d| == |ms| && forall i :: 0 <= i < |ms| ==> d[i] == ms[i].dist
  {
    seq(|ms|, i requires 0 <= i < |ms| => ms[i].dist)
  }

  /** Position of the marker get_closest returns. */
  function ClosestIndex(ms: seq<Marker>): (k: nat)
    requires |ms| > 0
    ensures EarliestMin(Dists(ms), 0, k)
  {
    ScanBestResult(Dists(ms), 0, ms[0].dist, 0);
    ScanBest(Dists(ms), 0, ms[0].dist, 0)
  }

  /** VisionController.get_closest: None for no markers, otherwise the
      earliest marker of least distance. */
  method GetClosest(ms: seq<Marker>) returns (r: Option<Marker>)
    ensures r.None? <==> |ms| == 0
    ensures r.Some? ==> r.value == ms[ClosestIndex(ms)]
  {
    if |ms| == 0 {
      return None;
    }
    var closest := ms[0];
    ghost var k: nat := 0;
    for i := 0 to |ms|
      invariant k < |ms| && closest == ms[k]
      invariant ScanBest(Dists(ms), i, closest.dist, k) == ScanBest(Dists(ms), 0, ms[0].dist, 0)
    {
      if ms[i].dist < closest.dist {
        closest := ms[i];
        k := i;
      }
    }
    return Some(closest);
  }

  /** The angle get_rotation_nearest compares: radians(|d - 180|). */
  function GetRad(d: real): real {
    Radians(Abs(d - 180.0))
  }

  /** The target angle for a requested degree, shifted by -360 above 180. */
  function Target(degree: real): real {
    GetRad(if degree > 180.0 then degree - 360.0 else degree)
  }

  function AngleDiffs(ms: seq<Marker>, target: real): (d: seq<real>)
    ensures |d| == |ms| && forall i :: 0 <= i < |ms| ==> d[i] == Abs(target - GetRad(ms[i].rotY))
  {
    seq(|ms|, i requires 0 <= i < |ms| => Abs(target - GetRad(ms[i].rotY)))
  }

  /** Position of the marker get_rotation_nearest returns as written: the
      running best starts at (pi, markers[0]). */
  function RotationNearestIndex(ms: seq<Marker>, degree: real): (k: nat)
    requires |ms| > 0
    ensures k < |ms|
  {
    var diffs := AngleDiffs(ms, Target(degree));
    ScanBestResult(diffs, 0, Pi, 0);
    ScanBest(diffs, 0, Pi, 0)
  }

  /** As written, the selection is the earliest nearest marker when some
      marker is within pi of the target, and markers[0] otherwise, however
      far it is. */
  lemma RotationNearestCases(ms: seq<Marker>, degree: real)
    requires |ms| > 0
    ensures var diffs := AngleDiffs(ms, Target(degree));
      ((exists j :: 0 <= j < |ms| && diffs[j] < Pi) ==> EarliestMin(diffs, 0, RotationNearestIndex(ms, degree))) &&
      ((forall j :: 0 <= j < |ms| ==> diffs[j] >= Pi) ==> RotationNearestIndex(ms, degree) == 0)
  {
    ScanBestResult(AngleDiffs(ms, Target(degree)), 0, Pi, 0);
  }

  /** VisionController.get_rotation_nearest, as written. */
  method GetRotationNearest(ms: seq<Marker>, degree: real) returns (r: Option<Marker>)
    ensures r.None? <==> |ms| == 0
    ensures r.Some? ==> r.value == ms[RotationNearestIndex(ms, degree)]
  {
    if |ms| == 0 {
      return None;
    }
    var d := degree;
    if d > 180.0 {
      d := d - 360.0;
    }
    var target := GetRad(d);
    ghost var diffs := AngleDiffs(ms, target);
    var bestDiff := Pi;
    var best := ms[0];
    ghost var k: nat := 0;
    for i := 0 to |ms|
      invariant k < |ms| && best == ms[k]
      invariant ScanBest(diffs, i, bestDiff, k) == ScanBest(diffs, 0, Pi, 0)
    {
      var diff := Abs(target - GetRad(ms[i].rotY));
      if diff < bestDiff {
        bestDiff := diff;
        best := ms[i];
        k := i;
      }
    }
    return Some(best);
  }

  function Probe(code: int, rotY: real): Marker {
    Marker(code, TokenSide, 0.1, 1.0, rotY, 0.0)
  }

  /** The sentinel lets a far marker win: for degree -180 (target 2*pi) and
      markers at rot_y 180 then 170, no difference is below pi, so the first
      marker is returned although the second is strictly nearer. */
  lemma RotationSentinelCounterexample()
    ensures var ms := [Probe(1, 180.0), Probe(2, 170.0)];
      var diffs := AngleDiffs(ms, Target(-180.0));
      RotationNearestIndex(ms, -180.0) == 0 && diffs[1] < diffs[0]
  {
    var ms := [Probe(1, 180.0), Probe(2, 170.0)];
    var diffs := AngleDiffs(ms, Target(-180.0));
    assert Target(-180.0) == 2.0 * Pi;
    assert GetRad(180.0) == 0.0;
    assert GetRad(170.0) == 10.0 * Pi / 180.0;
    assert diffs[0] == 2.0 * Pi;
    assert diffs[1] == 2.0 * Pi - 10.0 * Pi / 180.0;
    RotationNearestCases(ms, -180.0);
  }

  /** Corrected selection: the running best starts at markers[0]'s own
      difference, so the earliest nearest marker always wins. */
  function NearestIndex(ms: seq<Marker>, degree: real): (k: nat)
    requires |ms| > 0
    ensures EarliestMin(AngleDiffs(ms, Target(degree)), 0, k)
  {
    var diffs := AngleDiffs(ms, Target(degree));
    ScanBestResult(diffs, 0, diffs[0], 0);
    ScanBest(diffs, 0, diffs[0], 0)
  }

  /** get_rotation_nearest with the sentinel taken from the first marker. */
  method GetRotationNearestCorrected(ms: seq<Marker>, degree: real) returns (r: Option<Marker>)
    ensures r.None? <==> |ms| == 0
    ensures r.Some? ==> r.value == ms[NearestIndex(ms, degree)]
  {
    if |ms| == 0 {
      return None;
    }
    var d := degree;
    if d > 180.0 {
      d := d - 360.0;
    }
    var target := GetRad(d);
    ghost var diffs := AngleDiffs(ms, target);
    var best := ms[0];
    var bestDiff := Abs(target - GetRad(ms[0].rotY));
    ghost var k: nat := 0;
    for i := 0 to |ms|
      invariant k < |ms| && best == ms[k]
      invariant ScanBest(diffs, i, bestDiff, k) == ScanBest(diffs, 0, diffs[0], 0)
    {
      var diff := Abs(target - GetRad(ms[i].rotY));
      if diff < bestDiff {
        bestDiff := diff;
        best := ms[i];
        k := i;
      }
    }
    return Some(best);
  }

  // ---------------------------------------------------------------------
  // Marker geometry
  // ---------------------------------------------------------------------

  /** Height of the marker's centre above the floor. */
  function CenterHeight(m: Marker): real {
    var height := m.size / 2.0;
    match m.kind
    case Arena => height + 0.05
    case Slot => height + 0.02
    case Robot => height + 0.25
    case _ => height
  }

  /** Arena markers sit 0.05 m higher, slot markers 0.02 m, robot badges
      0.25 m, tokens not at all; the vertical offset is measured down from
      the camera. */
  lemma CenterHeightTable(m: Marker)
    ensures m.kind == Arena ==> CenterHeight(m) == m.size / 2.0 + 0.05
    ensures m.kind == Slot ==> CenterHeight(m) == m.size / 2.0 + 0.02
    ensures m.kind == Robot ==> CenterHeight(m) == m.size / 2.0 + 0.25
    ensures m.kind in [TokenTop, TokenBottom, TokenSide] ==> CenterHeight(m) == m.size / 2.0
    ensures VerticalHeight(m) == 0.376 - CenterHeight(m)
  {
  }

  function VerticalHeight(m: Marker): real {
    CameraHeight - CenterHeight(m)
  }

  /** Ground-plane distance: zero when the geometry is inconsistent,
      otherwise the leg of the right triangle whose hypotenuse is the line of
      sight and whose other leg is the vertical offset. */
  function HorizontalDist(m: Marker, sqrt: real -> real): (r: real)
    requires IsSqrt(sqrt)
    ensures r >= 0.0
    ensures m.dist * m.dist - VerticalHeight(m) * VerticalHeight(m) < 0.0 ==> r == 0.0
    ensures m.dist * m.dist - VerticalHeight(m) * VerticalHeight(m) >= 0.0 ==>
      r * r == m.dist * m.dist - VerticalHeight(m) * VerticalHeight(m)
  {
    var vh := VerticalHeight(m);
    var square := m.dist * m.dist - vh * vh;
    if square < 0.0 then 0.0 else sqrt(square)
  }

  /** The ground-plane distance never exceeds the straight-line distance. */
  lemma HorizontalWithinLineOfSight(m: Marker, sqrt: real -> real)
    requires IsSqrt(sqrt)
    ensures HorizontalDist(m, sqrt) <= Abs(m.dist)
  {
    var h := HorizontalDist(m, sqrt);
    var d := Abs(m.dist);
    assert d * d == m.dist * m.dist;
    SquareLe(h, d);
  }

  /** For non-negative reals, comparing squares compares the numbers. */
  lemma SquareLe(a: real, b: real)
    requires 0.0 <= a && 0.0 <= b && a * a <= b * b
    ensures a <= b
  {
    assert (a - b) * (a + b) == a * a - b * b;
    if a + b > 0.0 {
      assert a - b == (a * a - b * b) / (a + b);
    }
  }

  // ---------------------------------------------------------------------
  // Camera resolution
  // ---------------------------------------------------------------------

  /** A Python value passed as a resolution. */
  datatype PyValue =
    | PyInt(i: int)
    | PyBool(b: bool)
    | PyFloat(x: real)
    | PyTuple(items: seq<PyValue>)
    | PyList(items: seq<PyValue>)
    | PyOther

  /** `type(v) == tuple and len(v) == 2` and both items of type exactly int
      (so bools, which subclass int, do not qualify). */
  predicate IsIntPair(v: PyValue) {
    v.PyTuple? && |v.items| == 2 && v.items[0].PyInt? && v.items[1].PyInt?
  }

  class VisionController {
    var res: (int, int)

    constructor ()
      ensures res == (960, 720)
    {
      res := (960, 720);
    }

    /** change_resolution: accepts only a pair of ints. */
    method ChangeResolution(v: PyValue) returns (ok: bool)
      modifies this
      ensures ok <==> IsIntPair(v)
      ensures ok ==> res == (v.items[0].i, v.items[1].i)
      ensures !ok ==> res == old(res)
    {
      if v.PyTuple? && |v.items| == 2 {
        if v.items[0].PyInt? && v.items[1].PyInt? {
          res := (v.items[0].i, v.items[1].i);
          return true;
        }
      }
      return false;
    }
  }

  // ---------------------------------------------------------------------
  // Token
  // ---------------------------------------------------------------------

  /** The markers of one token as seen in one scan. */
  datatype Token = Token(top: Option<Marker>, bottom: Option<Marker>, sides: seq<Marker>)

  /** The last marker of a kind, scanning the list in order. */
  function LastOfKind(ms: seq<Marker>, kind: MarkerType): Option<Marker> {
    if ms == [] then None
    else if ms[|ms| - 1].kind == kind then Some(ms[|ms| - 1])
    else LastOfKind(ms[..|ms| - 1], kind)
  }

  /** All markers of a kind, in order. */
  function OfKind(ms: seq<Marker>, kind: MarkerType): seq<Marker> {
    if ms == [] then []
    else OfKind(ms[..|ms| - 1], kind) + (if ms[|ms| - 1].kind == kind then [ms[|ms| - 1]] else [])
  }

  /** LastOfKind finds a marker of that kind with none of that kind after it,
      and None only when there is no marker of that kind. */
  lemma {:induction false} LastOfKindMeaning(ms: seq<Marker>, kind: MarkerType)
    ensures LastOfKind(ms, kind).None? <==> forall i :: 0 <= i < |ms| ==> ms[i].kind != kind
    ensures LastOfKind(ms, kind).Some? ==>
      exists i :: 0 <= i < |ms| && ms[i] == LastOfKind(ms, kind).value &&
                  ms[i].kind == kind && forall j :: i < j < |ms| ==> ms[j].kind != kind
  {
    if ms != [] {
      var p := ms[..|ms| - 1];
      LastOfKindMeaning(p, kind);
      assert forall i :: 0 <= i < |p| ==> p[i] == ms[i];
      if ms[|ms| - 1].kind != kind && LastOfKind(p, kind).Some? {
        var i :| 0 <= i < |p| && p[i] == LastOfKind(p, kind).value &&
          p[i].kind == kind && forall j :: i < j < |p| ==> p[j].kind != kind;
        assert ms[i] == p[i];
      }
    }
  }

  /** OfKind keeps exactly the markers of that kind, and keeps their order:
      filtering a concatenation concatenates the filtered parts. */
  lemma {:induction false} OfKindMeaning(ms: seq<Marker>, kind: MarkerType)
    ensures forall m :: m in OfKind(ms, kind) <==> m in ms && m.kind == kind
  {
    if ms != [] {
      var p := ms[..|ms| - 1];
      OfKindMeaning(p, kind);
      assert ms == p + [ms[|ms| - 1]];
    }
  }

  lemma {:induction false} OfKindAppend(a: seq<Marker>, b: seq<Marker>, kind: MarkerType)
    ensures OfKind(a + b, kind) == OfKind(a, kind) + OfKind(b, kind)
    decreases |b|
  {
    if b == [] {
      assert a + b == a;
    } else {
      var b' := b[..|b| - 1];
      OfKindAppend(a, b', kind);
      assert (a + b)[..|a + b| - 1] == a + b';
    }
  }

  /** Token(markers): drop non-token markers, keep the last top and the last
      bottom marker seen, and every side marker in order. */
  method NewToken(markers: seq<Marker>) returns (t: Token)
    ensures var tokens := FilterKinds(markers, Included(["TOKENS"]));
      t == Token(LastOfKind(tokens, TokenTop), LastOfKind(tokens, TokenBottom), OfKind(tokens, TokenSide))
  {
    var filt := Include(["TOKENS"]);
    var ms := FilterKinds(markers, filt);
    var top: Option<Marker> := None;
    var bottom: Option<Marker> := None;
    var sides: seq<Marker> := [];
    for i := 0 to |ms|
      invariant top == LastOfKind(ms[..i], TokenTop)
      invariant bottom == LastOfKind(ms[..i], TokenBottom)
      invariant sides == OfKind(ms[..i], TokenSide)
    {
      var seen := ms[..i + 1];
      assert seen[..|seen| - 1] == ms[..i] && seen[|seen| - 1] == ms[i];
      var m := ms[i];
      if m.kind == TokenTop {
        top := Some(m);
      } else if m.kind == TokenBottom {
        bottom := Some(m);
      } else if m.kind == TokenSide {
        sides := sides + [m];
      }
    }
    assert ms[..|ms|] == ms;
    t := Token(top, bottom, sides);
  }
}
