/**
 * The venue resolver: search around a point with a growing radius and a strict quality bar,
 * relax the bar once at the largest radius if too few venues qualify, then rank the survivors
 * by rating weighted by review volume and keep the best eight.
 */
module Places {
  import opened Wrappers
  import opened Models

  /** A place as the search provider returns it; every field may be missing. */
  datatype Place = Place(
    id: Option<string>,
    displayName: Option<string>,
    formattedAddress: Option<string>,
    location: Option<Coord>,
    rating: Option<real>,
    userRatingCount: Option<int>,
    priceLevel: Option<string>,
    googleMapsUri: Option<string>,
    types: seq<string>,
    reviews: seq<Review>,
    editorialSummary: Option<string>)

  const InitialSearchRadius: nat := 800
  const MaxSearchRadius: nat := 3000
  const MinVenues: nat := 5
  const MaxVenues: nat := 8
  const MinRating: real := 4.0
  const MinReviews: int := 50
  const RelaxedMinRating: real := 3.8
  const RelaxedMinReviews: int := 30

  /** `v.get("rating") or 0`. */
  function RatingOrZero(v: Place): real {
    v.rating.GetOr(0.0)
  }

  /** `v.get("userRatingCount") or 0`. */
  function CountOrZero(v: Place): int {
    v.userRatingCount.GetOr(0)
  }

  predicate Qualifies(v: Place, minRating: real, minReviews: int) {
    RatingOrZero(v) >= minRating && CountOrZero(v) >= minReviews
  }

  /** `a` is `b` with some elements left out and the rest in their original order. */
  predicate IsSubsequence<T(==)>(a: seq<T>, b: seq<T>) {
    if a == [] then true
    else if b == [] then false
    else if a[|a| - 1] == b[|b| - 1] then IsSubsequence(a[..|a| - 1], b[..|b| - 1])
    else IsSubsequence(a, b[..|b| - 1])
  }

  /** The quality filter: `[v for v in venues if qualifies(v)]`. */
  function FilterVenues(venues: seq<Place>, minRating: real, minReviews: int): (r: seq<Place>)
    ensures forall i :: 0 <= i < |r| ==> Qualifies(r[i], minRating, minReviews)
    ensures |r| <= |venues|
  {
    if venues == [] then []
    else
      var last := venues[|venues| - 1];
      FilterVenues(venues[..|venues| - 1], minRating, minReviews)
        + (if Qualifies(last, minRating, minReviews) then [last] else [])
  }

  /**
   * The filter keeps exactly the qualifying venues, each as often as the input holds it,
   * and in input order.
   */
  lemma {:induction false} FilterVenuesExact(venues: seq<Place>, minRating: real, minReviews: int)
    ensures forall v :: v in FilterVenues(venues, minRating, minReviews) <==> v in venues && Qualifies(v, minRating, minReviews)
    ensures forall v :: multiset(FilterVenues(venues, minRating, minReviews))[v]
                        == if Qualifies(v, minRating, minReviews) then multiset(venues)[v] else 0
    ensures IsSubsequence(FilterVenues(venues, minRating, minReviews), venues)
  {
    if venues != [] {
      var init := venues[..|venues| - 1];
      var last := venues[|venues| - 1];
      assert venues == init + [last];
      FilterVenuesExact(init, minRating, minReviews);
      var f := FilterVenues(init, minRating, minReviews);
      var r := FilterVenues(venues, minRating, minReviews);
      if Qualifies(last, minRating, minReviews) {
        assert r == f + [last];
        assert r[..|r| - 1] == f;
      } else {
        assert r == f;
        SubsequenceExtend(f, init, last);
      }
    }
  }

  /** Dropping the last element of a subsequence leaves a subsequence. */
  lemma {:induction false} SubsequenceDropLast<T>(a: seq<T>, b: seq<T>)
    requires a != [] && IsSubsequence(a, b)
    ensures IsSubsequence(a[..|a| - 1], b)
    decreases |b|, 0
  {
    var a', b' := a[..|a| - 1], b[..|b| - 1];
    if a[|a| - 1] == b[|b| - 1] {
      if a' != [] && a'[|a'| - 1] == b[|b| - 1] {
        SubsequenceDropLast(a', b');
      }
    } else {
      SubsequenceDropLast(a, b');
      SubsequenceExtend(a', b', b[|b| - 1]);
      assert b' + [b[|b| - 1]] == b;
    }
  }

  /** A subsequence of a prefix is a subsequence of the longer sequence. */
  lemma {:induction false} SubsequenceExtend<T>(a: seq<T>, b: seq<T>, x: T)
    requires IsSubsequence(a, b)
    ensures IsSubsequence(a, b + [x])
    decreases |b|, 1
  {
    var b2 := b + [x];
    assert b2[..|b2| - 1] == b;
    if a != [] && a[|a| - 1] == x {
      SubsequenceDropLast(a, b);
    }
  }

  /**
   * The ranking key `rating * log10(max(count or 1, 1))`; `log10` is a parameter because
   * the model has no floating point.
   */
  function Score(v: Place, log10: int -> real): real {
    var count := if v.userRatingCount.Some? && v.userRatingCount.value != 0 then v.userRatingCount.value else 1;
    RatingOrZero(v) * log10(if count > 1 then count else 1)
  }

  /** The ranking key as a function value, for the sort. */
  function ScoreOf(log10: int -> real): Place -> real {
    v => Score(v, log10)
  }

  /** Each element's key is at least the next one's. */
  predicate Descending<T>(s: seq<T>, key: T -> real) {
    forall i :: 0 <= i < |s| - 1 ==> key(s[i]) >= key(s[i + 1])
  }

  /** Inserts `x` after every element whose key is at least its own. */
  function Insert<T>(s: seq<T>, x: T, key: T -> real): (r: seq<T>)
    requires Descending(s, key)
    ensures Descending(r, key)
    ensures multiset(r) == multiset(s) + multiset{x}
    ensures |r| == |s| + 1 && (r[0] == x || (s != [] && r[0] == s[0]))
  {
    if s == [] then [x]
    else if key(s[0]) < key(x) then [x] + s
    else
      var rest := Insert(s[1..], x, key);
      assert s == [s[0]] + s[1..];
      [s[0]] + rest
  }

  /** `sorted(s, key=key, reverse=True)`: a stable sort by descending key. */
  function SortDesc<T>(s: seq<T>, key: T -> real): (r: seq<T>)
    ensures Descending(r, key)
    ensures multiset(r) == multiset(s)
  {
    if s == [] then []
    else
      assert s == s[..|s| - 1] + [s[|s| - 1]];
      Insert(SortDesc(s[..|s| - 1], key), s[|s| - 1], key)
  }

  /** In a descending sequence every element's key is at least that of every later one. */
  lemma {:induction false} DescendingPairwise<T>(s: seq<T>, key: T -> real, i: int, j: int)
    requires Descending(s, key) && 0 <= i <= j < |s|
    ensures key(s[i]) >= key(s[j])
    decreases j - i
  {
    if i < j {
      DescendingPairwise(s, key, i + 1, j);
    }
  }

  /** The elements of `s` whose key is `k`, in order. */
  function WithKey<T>(s: seq<T>, key: T -> real, k: real): seq<T> {
    if s == [] then [] else (if key(s[0]) == k then [s[0]] else []) + WithKey(s[1..], key, k)
  }

  lemma {:induction false} WithKeyAppend<T>(a: seq<T>, b: seq<T>, key: T -> real, k: real)
    ensures WithKey(a + b, key, k) == WithKey(a, key, k) + WithKey(b, key, k)
  {
    if a != [] {
      assert (a + b)[1..] == a[1..] + b;
      WithKeyAppend(a[1..], b, key, k);
    } else {
      assert a + b == b;
    }
  }

  /** A descending sequence whose first key is below `k` has no element with key `k`. */
  lemma {:induction false} WithKeyBelow<T>(s: seq<T>, key: T -> real, k: real)
    requires Descending(s, key) && s != [] && key(s[0]) < k
    ensures WithKey(s, key, k) == []
  {
    if |s| > 1 {
      assert key(s[1]) <= key(s[0]);
      assert Descending(s[1..], key) by {
        forall i | 0 <= i < |s[1..]| - 1 ensures key(s[1..][i]) >= key(s[1..][i + 1]) {
          assert s[1..][i] == s[i + 1] && s[1..][i + 1] == s[i + 2];
        }
      }
      WithKeyBelow(s[1..], key, k);
    }
  }

  /** The tail of a descending sequence is descending. */
  lemma DescendingTail<T>(s: seq<T>, key: T -> real)
    requires Descending(s, key) && s != []
    ensures Descending(s[1..], key)
  {
    forall i | 0 <= i < |s[1..]| - 1 ensures key(s[1..][i]) >= key(s[1..][i + 1]) {
      assert s[1..][i] == s[i + 1] && s[1..][i + 1] == s[i + 2];
    }
  }

  /** Inserting in front of a sequence whose keys are all lower. */
  lemma InsertStableFront<T>(s: seq<T>, x: T, key: T -> real, k: real)
    requires Descending(s, key) && s != [] && key(s[0]) < key(x)
    ensures WithKey(Insert(s, x, key), key, k) == WithKey(s, key, k) + (if key(x) == k then [x] else [])
  {
    assert Insert(s, x, key) == [x] + s;
    if key(x) == k {
      WithKeyBelow(s, key, k);
    }
    WithKeyAppend([x], s, key, k);
  }

  /** Putting the same element in front of two sequences keeps a relation between their keyed parts. */
  lemma WithKeyCons<T>(h: T, a: seq<T>, b: seq<T>, extra: seq<T>, key: T -> real, k: real)
    requires WithKey(a, key, k) == WithKey(b, key, k) + extra
    ensures WithKey([h] + a, key, k) == WithKey([h] + b, key, k) + extra
  {
    WithKeyAppend([h], a, key, k);
    WithKeyAppend([h], b, key, k);
  }

  /** Inserting behind the first element, given the property for the tail. */
  lemma InsertStableBehind<T>(s: seq<T>, x: T, key: T -> real, k: real)
    requires Descending(s, key) && s != [] && key(s[0]) >= key(x)
    requires Descending(s[1..], key)
    requires WithKey(Insert(s[1..], x, key), key, k) == WithKey(s[1..], key, k) + (if key(x) == k then [x] else [])
    ensures WithKey(Insert(s, x, key), key, k) == WithKey(s, key, k) + (if key(x) == k then [x] else [])
  {
    assert Insert(s, x, key) == [s[0]] + Insert(s[1..], x, key);
    assert [s[0]] + s[1..] == s;
    WithKeyCons(s[0], Insert(s[1..], x, key), s[1..], if key(x) == k then [x] else [], key, k);
  }

  /** Insertion puts `x` after every element with the same key. */
  lemma {:induction false} InsertStable<T>(s: seq<T>, x: T, key: T -> real, k: real)
    requires Descending(s, key)
    ensures WithKey(Insert(s, x, key), key, k) == WithKey(s, key, k) + (if key(x) == k then [x] else [])
  {
    if s == [] {
    } else if key(s[0]) < key(x) {
      InsertStableFront(s, x, key, k);
    } else {
      DescendingTail(s, key);
      InsertStable(s[1..], x, key, k);
      InsertStableBehind(s, x, key, k);
    }
  }

  /** The sort is stable: the elements sharing any one key keep their input order. */
  lemma {:induction false} SortStable<T>(s: seq<T>, key: T -> real, k: real)
    ensures WithKey(SortDesc(s, key), key, k) == WithKey(s, key, k)
  {
    if s != [] {
      var init, last := s[..|s| - 1], s[|s| - 1];
      assert s == init + [last];
      WithKeyAppend(init, [last], key, k);
      var sortedInit := SortDesc(init, key);
      assert SortDesc(s, key) == Insert(sortedInit, last, key);
      SortStable(init, key, k);
      InsertStable(sortedInit, last, key, k);
      assert WithKey([last], key, k) == if key(last) == k then [last] else [];
    }
  }

  /** The best `MaxVenues` venues by descending score. */
  function Rank(venues: seq<Place>, log10: int -> real): (r: seq<Place>) {
    var sorted := SortDesc(venues, ScoreOf(log10));
    if |sorted| <= MaxVenues then sorted else sorted[..MaxVenues]
  }

  /** Sorting keeps the length. */
  lemma SortLength<T>(s: seq<T>, key: T -> real)
    ensures |SortDesc(s, key)| == |s|
  {
    assert |multiset(SortDesc(s, key))| == |multiset(s)|;
  }

  /** A prefix of a descending sequence is descending. */
  lemma DescendingPrefix<T>(s: seq<T>, key: T -> real, n: nat)
    requires Descending(s, key) && n <= |s|
    ensures Descending(s[..n], key)
  {
    forall i | 0 <= i < n - 1 ensures key(s[..n][i]) >= key(s[..n][i + 1]) {
      assert s[..n][i] == s[i] && s[..n][i + 1] == s[i + 1];
    }
  }

  /** No element cut off by the truncation scores above an element that was kept. */
  lemma {:induction false} TruncationKeepsBest<T>(s: seq<T>, key: T -> real, n: nat)
    requires Descending(s, key) && n <= |s|
    ensures forall v :: v in multiset(s) - multiset(s[..n]) ==>
              forall i :: 0 <= i < n ==> key(v) <= key(s[i])
  {
    assert s == s[..n] + s[n..];
    assert multiset(s) == multiset(s[..n]) + multiset(s[n..]);
    forall v | v in multiset(s) - multiset(s[..n])
      ensures forall i :: 0 <= i < n ==> key(v) <= key(s[i])
    {
      assert v in multiset(s[n..]);
      var j :| 0 <= j < |s[n..]| && s[n..][j] == v;
      forall i | 0 <= i < n ensures key(v) <= key(s[i]) {
        DescendingPairwise(s, key, i, n + j);
      }
    }
  }

  /**
   * `_score_and_sort(venues)[:MAX_VENUES]`: at most eight venues, all eight when there are that
   * many, in descending score, drawn from the input, and none left out scores above one kept.
   */
  lemma {:induction false} RankSpec(venues: seq<Place>, log10: int -> real)
    ensures var r := Rank(venues, log10);
      && |r| == (if |venues| <= MaxVenues then |venues| else MaxVenues)
      && Descending(r, ScoreOf(log10))
      && multiset(r) <= multiset(venues)
      && forall v :: v in multiset(venues) - multiset(r) ==>
           forall i :: 0 <= i < |r| ==> Score(v, log10) <= Score(r[i], log10)
  {
    var key := ScoreOf(log10);
    var sorted := SortDesc(venues, key);
    SortLength(venues, key);
    var n := if |sorted| <= MaxVenues then |sorted| else MaxVenues;
    assert sorted == sorted[..n] + sorted[n..];
    assert multiset(sorted) == multiset(sorted[..n]) + multiset(sorted[n..]);
    assert sorted[..n] == Rank(venues, log10);
    DescendingPrefix(sorted, key, n);
    TruncationKeepsBest(sorted, key, n);
  }

  /** Halving with the remainder made explicit. */
  function Half(r: nat): (k: nat)
    ensures r == 2 * k || r == 2 * k + 1
  {
    r / 2
  }

  lemma DoubleIsEven(m: nat)
    ensures (2 * m) % 2 == 0
  {
  }

  /** Python's `round(radius * 1.5)`; halves round to the even neighbour. */
  function NextRadius(r: nat): (n: nat)
    ensures -1 <= 2 * n - 3 * r <= 1
    ensures 2 * n != 3 * r ==> n % 2 == 0
    ensures r >= 1 ==> n > r
  {
    var k := Half(r);
    if r == 2 * k then 3 * k
    else
      // 1.5·r is 3k + 1.5, halfway between 3k + 1 and 3k + 2; the even one is taken.
      var j := Half(k);
      if k == 2 * j + 1 then
        DoubleIsEven(3 * j + 2);
        assert 3 * k + 1 == 2 * (3 * j + 2);
        3 * k + 1
      else
        DoubleIsEven(3 * j + 1);
        assert 3 * k + 2 == 2 * (3 * j + 1);
        3 * k + 2
  }

  /** The rounding is the only whole number of metres within half a metre of 1.5·r that breaks ties to even. */
  lemma NextRadiusUnique(r: nat, m: int)
    requires -1 <= 2 * m - 3 * r <= 1
    requires 2 * m != 3 * r ==> m % 2 == 0
    ensures m == NextRadius(r)
  {
    var n := NextRadius(r);
    var k := r / 2;
    if r % 2 == 0 {
      assert r == 2 * k && 3 * r == 2 * (3 * k);
      assert m == 3 * k == n;
    } else {
      assert r == 2 * k + 1 && 3 * r == 2 * (3 * k + 1) + 1;
      assert m == 3 * k + 1 || m == 3 * k + 2;
      assert n == 3 * k + 1 || n == 3 * k + 2;
      assert (3 * k + 1) % 2 != (3 * k + 2) % 2;
    }
  }

  /** Everything one `search_venues` call produced: the venues (`None` if a search raised) and the radii searched. */
  datatype SearchOutcome = SearchOutcome(venues: Option<seq<Place>>, radii: seq<nat>)

  /** A provider search centred on a point with a radius in metres; `None` when the call raises. */
  type Searcher = (Coord, nat) -> Option<seq<Place>>

  /** What the radius loop settles on before ranking: the last pass's qualifying venues (`None` if a search raised) and the radii searched. */
  datatype Found = Found(filtered: Option<seq<Place>>, radii: seq<nat>)

  /** The found venues, ranked once at the end as `search_venues` does. */
  function Ranked(f: Found, log10: int -> real): SearchOutcome {
    SearchOutcome(if f.filtered.Some? then Some(Rank(f.filtered.value, log10)) else None, f.radii)
  }

  /** The single relaxed retry at the largest radius, before ranking. */
  function RelaxedFound(center: Coord, search: Searcher): Found {
    match search(center, MaxSearchRadius)
    case None => Found(None, [MaxSearchRadius])
    case Some(raw) => Found(Some(FilterVenues(raw, RelaxedMinRating, RelaxedMinReviews)), [MaxSearchRadius])
  }

  /** The single relaxed retry at the largest radius. */
  function RelaxedPass(center: Coord, search: Searcher, log10: int -> real): SearchOutcome {
    Ranked(RelaxedFound(center, search), log10)
  }

  /** The strict passes from `radius` on, followed by the relaxed pass if none yields five venues. */
  function ResolveFrom(center: Coord, search: Searcher, radius: nat): Found
    requires radius >= 1
    decreases MaxSearchRadius - radius
  {
    if radius > MaxSearchRadius then RelaxedFound(center, search)
    else
      match search(center, radius)
      case None => Found(None, [radius])
      case Some(raw) =>
        var filtered := FilterVenues(raw, MinRating, MinReviews);
        if |filtered| >= MinVenues then Found(Some(filtered), [radius])
        else
          var rest := ResolveFrom(center, search, NextRadius(radius));
          Found(rest.filtered, [radius] + rest.radii)
  }

  /** What `search_venues(center)` returns, given the provider. */
  function Resolve(center: Coord, search: Searcher, log10: int -> real): SearchOutcome {
    Ranked(ResolveFrom(center, search, InitialSearchRadius), log10)
  }

  /** `search_venues`: the radius loop and the relaxed retry. */
  method SearchVenues(center: Coord, search: Searcher, log10: int -> real)
    returns (venues: Option<seq<Place>>, radii: seq<nat>)
    ensures SearchOutcome(venues, radii) == Resolve(center, search, log10)
  {
    var radius: nat := InitialSearchRadius;
    var filtered: seq<Place> := [];
    radii := [];
    while radius <= MaxSearchRadius
      invariant radius >= 1 && |filtered| < MinVenues
      invariant var rest := ResolveFrom(center, search, radius);
        ResolveFrom(center, search, InitialSearchRadius) == Found(rest.filtered, radii + rest.radii)
      decreases MaxSearchRadius - radius
    {
      ghost var seen := radii;
      var raw := search(center, radius);
      radii := radii + [radius];
      if raw.None? {
        assert ResolveFrom(center, search, radius) == Found(None, [radius]);
        venues := None;
        return;
      }
      filtered := FilterVenues(raw.value, MinRating, MinReviews);
      if |filtered| >= MinVenues {
        assert ResolveFrom(center, search, radius) == Found(Some(filtered), [radius]);
        break;
      }
      ghost var rest := ResolveFrom(center, search, NextRadius(radius));
      assert ResolveFrom(center, search, radius) == Found(rest.filtered, [radius] + rest.radii);
      assert seen + ([radius] + rest.radii) == radii + rest.radii;
      radius := NextRadius(radius);
    }
    if |filtered| < MinVenues {
      assert ResolveFrom(center, search, radius) == RelaxedFound(center, search);
      var raw := search(center, MaxSearchRadius);
      radii := radii + [MaxSearchRadius];
      if raw.None? {
        venues := None;
        return;
      }
      filtered := FilterVenues(raw.value, RelaxedMinRating, RelaxedMinReviews);
    }
    venues := Some(Rank(filtered, log10));
  }

  /** The radii `search_venues` can search, in order: four strict passes, then the relaxed one. */
  const Schedule: seq<nat> := [800, 1200, 1800, 2700, 3000]

  /** The radius of the `k`-th strict pass of the loop (the fifth exceeds the maximum). */
  function PassRadius(k: nat): (r: nat)
    ensures r >= 1
  {
    if k == 0 then InitialSearchRadius else NextRadius(PassRadius(k - 1))
  }

  /** The loop's radii are exactly 800, 1200, 1800 and 2700, and the next one, 4050, ends it. */
  lemma PassRadii()
    ensures forall k :: 0 <= k < 4 ==> PassRadius(k) == Schedule[k]
    ensures PassRadius(4) == 4050 > MaxSearchRadius
  {
    assert PassRadius(1) == 1200;
    assert PassRadius(2) == 1800;
    assert PassRadius(3) == 2700;
  }

  /** A strict pass at `radius` that returned, but with fewer than five qualifying venues. */
  predicate StrictMiss(center: Coord, search: Searcher, radius: nat) {
    search(center, radius).Some?
    && |FilterVenues(search(center, radius).value, MinRating, MinReviews)| < MinVenues
  }

  /** How the last strict pass at `radius` ended the search: it raised, or five or more venues qualified. */
  predicate StrictStop(center: Coord, search: Searcher, log10: int -> real, radius: nat, venues: Option<seq<Place>>) {
    match search(center, radius)
    case None => venues.None?
    case Some(raw) =>
      var filtered := FilterVenues(raw, MinRating, MinReviews);
      |filtered| >= MinVenues && venues == Some(Rank(filtered, log10))
  }

  /** `StrictStop` before ranking: the pass raised, or five or more venues qualified and were kept. */
  predicate StrictFound(center: Coord, search: Searcher, radius: nat, filtered: Option<seq<Place>>) {
    match search(center, radius)
    case None => filtered.None?
    case Some(raw) =>
      var f := FilterVenues(raw, MinRating, MinReviews);
      |f| >= MinVenues && filtered == Some(f)
  }

  /** The shape of the search from the `k`-th strict pass on. */
  predicate ShapedFrom(center: Coord, search: Searcher, k: nat, o: Found)
    requires k <= 4
  {
    && 1 <= |o.radii| <= 5 - k
    && o.radii == Schedule[k..k + |o.radii|]
    && (forall j :: 0 <= j < |o.radii| - 1 ==> StrictMiss(center, search, o.radii[j]))
    && (k + |o.radii| == 5 ==> o.filtered == RelaxedFound(center, search).filtered)
    && (k + |o.radii| < 5 ==> StrictFound(center, search, o.radii[|o.radii| - 1], o.filtered))
  }

  /** A strict miss at the `k`-th radius followed by a search of the given shape has the shape from `k`. */
  lemma ShapedPrepend(center: Coord, search: Searcher, k: nat, rest: Found)
    requires k < 4 && ShapedFrom(center, search, k + 1, rest)
    requires StrictMiss(center, search, Schedule[k])
    ensures ShapedFrom(center, search, k, Found(rest.filtered, [Schedule[k]] + rest.radii))
  {
    var o := Found(rest.filtered, [Schedule[k]] + rest.radii);
    assert Schedule[k..k + |o.radii|] == [Schedule[k]] + Schedule[k + 1..k + 1 + |rest.radii|];
    assert o.radii[|o.radii| - 1] == rest.radii[|rest.radii| - 1];
    forall j | 0 <= j < |o.radii| - 1 ensures StrictMiss(center, search, o.radii[j]) {
      if j > 0 {
        assert o.radii[j] == rest.radii[j - 1];
      }
    }
  }

  /** Past the maximum radius only the relaxed pass is left. */
  lemma ShapedRelaxed(center: Coord, search: Searcher, radius: nat)
    requires radius > MaxSearchRadius
    ensures ShapedFrom(center, search, 4, ResolveFrom(center, search, radius))
  {
    var o := ResolveFrom(center, search, radius);
    assert o == RelaxedFound(center, search);
    assert o.radii == [MaxSearchRadius] == Schedule[4..5];
  }

  /** A strict pass that raised or found five venues ends the search there. */
  lemma ShapedStop(center: Coord, search: Searcher, k: nat)
    requires k < 4 && !StrictMiss(center, search, Schedule[k])
    ensures ShapedFrom(center, search, k, ResolveFrom(center, search, Schedule[k]))
  {
    var o := ResolveFrom(center, search, Schedule[k]);
    assert Schedule[k] <= MaxSearchRadius;
    assert o.radii == [Schedule[k]] == Schedule[k..k + 1];
  }

  lemma {:induction false} ResolveFromShape(center: Coord, search: Searcher, k: nat)
    requires k <= 4
    ensures ShapedFrom(center, search, k, ResolveFrom(center, search, PassRadius(k)))
    decreases 4 - k
  {
    PassRadii();
    var radius := PassRadius(k);
    if k == 4 {
      ShapedRelaxed(center, search, radius);
    } else {
      assert radius == Schedule[k] <= MaxSearchRadius;
      if StrictMiss(center, search, radius) {
        ResolveFromShape(center, search, k + 1);
        var rest := ResolveFrom(center, search, PassRadius(k + 1));
        assert ResolveFrom(center, search, radius) == Found(rest.filtered, [radius] + rest.radii);
        ShapedPrepend(center, search, k, rest);
      } else {
        ShapedStop(center, search, k);
      }
    }
  }

  /**
   * The complete behaviour of `search_venues`: it searches a prefix of 800, 1200, 1800, 2700, 3000
   * (so at most five provider calls, none above 3000 m); every strict pass but the last returned
   * fewer than five qualifying venues; a search that stops before 3000 either raised or found five
   * or more strict venues and returns their ranking; and the relaxed pass at 3000 happens exactly
   * when every strict pass fell short, and then its own ranking is the result.
   */
  lemma ResolveShape(center: Coord, search: Searcher, log10: int -> real)
    ensures var o := Resolve(center, search, log10);
      && 1 <= |o.radii| <= 5
      && o.radii == Schedule[..|o.radii|]
      && (forall j :: 0 <= j < |o.radii| - 1 ==> StrictMiss(center, search, o.radii[j]))
      && (|o.radii| == 5 ==> o.venues == RelaxedPass(center, search, log10).venues)
      && (|o.radii| < 5 ==> StrictStop(center, search, log10, o.radii[|o.radii| - 1], o.venues))
      && (|o.radii| == 5 <==> forall j :: 0 <= j < 4 ==> StrictMiss(center, search, Schedule[j]))
  {
    ResolveFromShape(center, search, 0);
    var f := ResolveFrom(center, search, InitialSearchRadius);
    var o := Resolve(center, search, log10);
    assert ShapedFrom(center, search, 0, f);
    assert o == Ranked(f, log10);
    if |o.radii| < 5 {
      var n := |o.radii|;
      assert Schedule[n - 1] == o.radii[n - 1];
      assert StrictFound(center, search, o.radii[n - 1], f.filtered);
      assert !StrictMiss(center, search, Schedule[n - 1]);
    } else {
      forall j | 0 <= j < 4 ensures StrictMiss(center, search, Schedule[j]) {
        assert Schedule[j] == o.radii[j];
      }
    }
  }

  /** The ranking is short, descending and drawn from its input. */
  lemma RankBounds(venues: seq<Place>, log10: int -> real)
    ensures var r := Rank(venues, log10);
      |r| <= MaxVenues && Descending(r, ScoreOf(log10)) && multiset(r) <= multiset(venues)
  {
    var key := ScoreOf(log10);
    var sorted := SortDesc(venues, key);
    SortLength(venues, key);
    var n := if |sorted| <= MaxVenues then |sorted| else MaxVenues;
    assert sorted == sorted[..n] + sorted[n..];
    assert multiset(sorted) == multiset(sorted[..n]) + multiset(sorted[n..]);
    assert sorted[..n] == Rank(venues, log10);
    DescendingPrefix(sorted, key, n);
  }

  /** A ranking of the venues of `raw` that pass thresholds at least as strict as the relaxed ones. */
  lemma RankedFilterQuality(raw: seq<Place>, minRating: real, minReviews: int, log10: int -> real)
    requires minRating >= RelaxedMinRating && minReviews >= RelaxedMinReviews
    ensures var v := Rank(FilterVenues(raw, minRating, minReviews), log10);
      && |v| <= MaxVenues
      && Descending(v, ScoreOf(log10))
      && (forall i :: 0 <= i < |v| ==> RatingOrZero(v[i]) >= RelaxedMinRating && CountOrZero(v[i]) >= RelaxedMinReviews)
      && multiset(v) <= multiset(raw)
  {
    var filtered := FilterVenues(raw, minRating, minReviews);
    var v := Rank(filtered, log10);
    RankBounds(filtered, log10);
    FilteredFrom(raw, minRating, minReviews);
    forall i | 0 <= i < |v|
      ensures RatingOrZero(v[i]) >= RelaxedMinRating && CountOrZero(v[i]) >= RelaxedMinReviews
    {
      assert v[i] in multiset(v);
      assert v[i] in multiset(filtered);
      var j :| 0 <= j < |filtered| && filtered[j] == v[i];
      assert Qualifies(filtered[j], minRating, minReviews);
    }
  }

  /** The filtered venues are drawn from the input. */
  lemma FilteredFrom(raw: seq<Place>, minRating: real, minReviews: int)
    ensures multiset(FilterVenues(raw, minRating, minReviews)) <= multiset(raw)
  {
    FilterVenuesExact(raw, minRating, minReviews);
  }

  /**
   * Whatever `search_venues` returns is at most eight venues, in descending score, each with
   * rating at least 3.8 and at least 30 ratings, all taken from the last search it made.
   */
  lemma ResolveQuality(center: Coord, search: Searcher, log10: int -> real)
    ensures var o := Resolve(center, search, log10);
      o.venues.Some? ==>
        && |o.venues.value| <= MaxVenues
        && Descending(o.venues.value, ScoreOf(log10))
        && (forall i :: 0 <= i < |o.venues.value| ==>
              RatingOrZero(o.venues.value[i]) >= RelaxedMinRating && CountOrZero(o.venues.value[i]) >= RelaxedMinReviews)
        && search(center, o.radii[|o.radii| - 1]).Some?
        && multiset(o.venues.value) <= multiset(search(center, o.radii[|o.radii| - 1]).value)
  {
    ResolveShape(center, search, log10);
    var o := Resolve(center, search, log10);
    if o.venues.Some? {
      var last := o.radii[|o.radii| - 1];
      if |o.radii| < 5 {
        assert StrictStop(center, search, log10, last, o.venues);
        RankedFilterQuality(search(center, last).value, MinRating, MinReviews, log10);
      } else {
        assert last == MaxSearchRadius;
        RankedFilterQuality(search(center, last).value, RelaxedMinRating, RelaxedMinReviews, log10);
      }
    }
  }
}
