/**
 * The geofence transition engine of Sources/LocationEmulation/EmulatedLocationManager.swift,
 * as functions on the two region arrays: which regions a location enters and
 * leaves, and what the arrays hold afterwards.
 */
module TransitionEngine {
  import opened Geodesy
  import opened Regions
  import opened GeoFences

  /** The membership test `distance(to: region.coordinates, from: location) <= region.radius`. */
  predicate Inside(dist: DistanceFunction, r: Region, c: Coordinates) {
    dist(CoordinatesOf(r), c) <= r.radius
  }

  /** The regions of `rs` whose membership of `c` is `inside`, in array order (`filter`). */
  function Select(dist: DistanceFunction, rs: seq<Region>, c: Coordinates, inside: bool): (s: seq<Region>)
    ensures |s| <= |rs|
    ensures forall r :: r in s ==> r in rs && Inside(dist, r, c) == inside
    ensures forall r :: r in rs && Inside(dist, r, c) == inside ==> r in s
  {
    if rs == [] then []
    else
      var init, r := rs[..|rs| - 1], rs[|rs| - 1];
      assert rs == init + [r];
      Select(dist, init, c, inside) + (if Inside(dist, r, c) == inside then [r] else [])
  }

  /** The ids of a collection of regions. */
  function Ids(rs: seq<Region>): set<string> {
    set r | r in rs :: r.id
  }

  /** `removeAll { ids.contains($0.id) }`: drop every region whose id is in `ids`, keeping the order. */
  function RemoveIds(rs: seq<Region>, ids: set<string>): (s: seq<Region>)
    ensures |s| <= |rs|
    ensures forall r :: r in s ==> r in rs && r.id !in ids
    ensures forall r :: r in rs && r.id !in ids ==> r in s
  {
    if rs == [] then []
    else
      var init, r := rs[..|rs| - 1], rs[|rs| - 1];
      assert rs == init + [r];
      RemoveIds(init, ids) + (if r.id in ids then [] else [r])
  }

  /** No two regions of `rs` share an id. */
  predicate UniqueIds(rs: seq<Region>) {
    rs == [] || (UniqueIds(rs[..|rs| - 1]) && rs[|rs| - 1].id !in Ids(rs[..|rs| - 1]))
  }

  /** Regions entered at `c`: those not containing the old location that contain `c`. */
  function Entering(dist: DistanceFunction, notContaining: seq<Region>, c: Coordinates): (e: seq<Region>)
    ensures forall r :: r in e <==> r in notContaining && Inside(dist, r, c)
  {
    Select(dist, notContaining, c, true)
  }

  /** Regions exited at `c`: those containing the old location that do not contain `c`. */
  function Leaving(dist: DistanceFunction, containing: seq<Region>, c: Coordinates): (l: seq<Region>)
    ensures forall r :: r in l <==> r in containing && !Inside(dist, r, c)
  {
    Select(dist, containing, c, false)
  }

  /** `regionsContainingLocation` after `transitionToLocation`: exits removed by id, entries appended. */
  function NextContaining(dist: DistanceFunction, containing: seq<Region>, notContaining: seq<Region>, c: Coordinates): (n: seq<Region>)
    ensures forall r :: r in n ==> (r in containing || r in notContaining) && Inside(dist, r, c)
    ensures forall r :: r in notContaining && Inside(dist, r, c) ==> r in n
    ensures |n| <= |containing| + |notContaining|
  {
    StayersKeepSide(dist, containing, c, true);
    RemoveIds(containing, Ids(Leaving(dist, containing, c))) + Entering(dist, notContaining, c)
  }

  /** `regionsNotContainingLocation` after `transitionToLocation`: entries removed by id, exits appended. */
  function NextNotContaining(dist: DistanceFunction, containing: seq<Region>, notContaining: seq<Region>, c: Coordinates): (n: seq<Region>)
    ensures forall r :: r in n ==> (r in containing || r in notContaining) && !Inside(dist, r, c)
    ensures forall r :: r in containing && !Inside(dist, r, c) ==> r in n
    ensures |n| <= |containing| + |notContaining|
  {
    StayersKeepSide(dist, notContaining, c, false);
    RemoveIds(notContaining, Ids(Entering(dist, notContaining, c))) + Leaving(dist, containing, c)
  }

  function EnteredAll(rs: seq<Region>): (e: seq<GeoFence>)
    ensures |e| == |rs| && forall i :: 0 <= i < |rs| ==> e[i] == Entered(rs[i])
  {
    seq(|rs|, i requires 0 <= i < |rs| => Entered(rs[i]))
  }

  function ExitedAll(rs: seq<Region>): (e: seq<GeoFence>)
    ensures |e| == |rs| && forall i :: 0 <= i < |rs| ==> e[i] == Exited(rs[i])
  {
    seq(|rs|, i requires 0 <= i < |rs| => Exited(rs[i]))
  }

  /** The geofence events of one transition: every entry first, then every exit. */
  function TransitionEvents(dist: DistanceFunction, containing: seq<Region>, notContaining: seq<Region>, c: Coordinates): (ev: seq<GeoFence>)
    ensures |ev| == |Entering(dist, notContaining, c)| + |Leaving(dist, containing, c)|
    ensures forall i :: 0 <= i < |ev| ==>
              || (ev[i].Entered? && ev[i].region in notContaining && Inside(dist, ev[i].region, c))
              || (ev[i].Exited? && ev[i].region in containing && !Inside(dist, ev[i].region, c))
    ensures forall i, j :: 0 <= i < j < |ev| && ev[j].Entered? ==> ev[i].Entered?
  {
    EnteredAll(Entering(dist, notContaining, c)) + ExitedAll(Leaving(dist, containing, c))
  }

  /** What removal by the ids of the movers leaves behind sits on the right side of `c`, whatever the ids. */
  lemma StayersKeepSide(dist: DistanceFunction, rs: seq<Region>, c: Coordinates, inside: bool)
    ensures forall r :: r in RemoveIds(rs, Ids(Select(dist, rs, c, !inside))) ==> Inside(dist, r, c) == inside
  {
    var movers := Select(dist, rs, c, !inside);
    forall r | r in RemoveIds(rs, Ids(movers)) ensures Inside(dist, r, c) == inside {
      assert Inside(dist, r, c) != inside ==> r in movers && r.id in Ids(movers);
    }
  }

  // ----- Lemmas about the region arrays -----

  /** Every region goes to exactly one side: the two selections split `rs` as a multiset. */
  lemma {:induction false} SelectSplits(dist: DistanceFunction, rs: seq<Region>, c: Coordinates)
    ensures multiset(Select(dist, rs, c, true)) + multiset(Select(dist, rs, c, false)) == multiset(rs)
  {
    if rs != [] {
      var init := rs[..|rs| - 1];
      assert rs == init + [rs[|rs| - 1]];
      SelectSplits(dist, init, c);
    }
  }

  /** Uniqueness of ids, counted: `rs` has as many distinct ids as elements. */
  lemma {:induction false} UniqueIdsCount(rs: seq<Region>)
    ensures |Ids(rs)| <= |rs|
    ensures UniqueIds(rs) <==> |Ids(rs)| == |rs|
  {
    if rs != [] {
      var init, r := rs[..|rs| - 1], rs[|rs| - 1];
      assert rs == init + [r];
      assert Ids(rs) == Ids(init) + {r.id};
      UniqueIdsCount(init);
    }
  }

  /** Uniqueness of ids depends on the multiset of regions only. */
  lemma UniqueIdsPermutation(a: seq<Region>, b: seq<Region>)
    requires multiset(a) == multiset(b)
    ensures UniqueIds(a) <==> UniqueIds(b)
  {
    assert |a| == |multiset(a)| == |multiset(b)| == |b|;
    forall x ensures x in a <==> x in b {
      assert x in a <==> x in multiset(a);
      assert x in b <==> x in multiset(b);
    }
    assert Ids(a) == Ids(b);
    UniqueIdsCount(a);
    UniqueIdsCount(b);
  }

  /** Unique ids in a concatenation means unique ids in each part, and no id in both. */
  lemma {:induction false} UniqueIdsConcat(a: seq<Region>, b: seq<Region>)
    ensures UniqueIds(a + b) <==> UniqueIds(a) && UniqueIds(b) && Ids(a) !! Ids(b)
  {
    if b == [] {
      assert a + b == a;
    } else {
      var init, r := b[..|b| - 1], b[|b| - 1];
      assert (a + b)[..|a + b| - 1] == a + init;
      assert (a + b)[|a + b| - 1] == r;
      assert Ids(a + init) == Ids(a) + Ids(init);
      assert Ids(b) == Ids(init) + {r.id} by { assert b == init + [r]; }
      UniqueIdsConcat(a, init);
    }
  }

  /** A selection keeps unique ids unique. */
  lemma {:induction false} SelectUnique(dist: DistanceFunction, rs: seq<Region>, c: Coordinates, inside: bool)
    requires UniqueIds(rs)
    ensures UniqueIds(Select(dist, rs, c, inside))
  {
    if rs != [] {
      var init, r := rs[..|rs| - 1], rs[|rs| - 1];
      SelectUnique(dist, init, c, inside);
      var s := Select(dist, init, c, inside);
      assert Ids(s) <= Ids(init);
      if Inside(dist, r, c) == inside {
        assert Select(dist, rs, c, inside) == s + [r];
        assert (s + [r])[..|s + [r]| - 1] == s;
        assert r.id !in Ids(s);
      } else {
        assert Select(dist, rs, c, inside) == s;
      }
    }
  }

  /** Removing ids that no region of `rs` carries changes nothing. */
  lemma {:induction false} RemoveIdsRelevant(rs: seq<Region>, ids: set<string>, ids': set<string>)
    requires ids * Ids(rs) == ids' * Ids(rs)
    ensures RemoveIds(rs, ids) == RemoveIds(rs, ids')
  {
    if rs != [] {
      var init, r := rs[..|rs| - 1], rs[|rs| - 1];
      assert rs == init + [r];
      assert Ids(rs) == Ids(init) + {r.id};
      assert ids * Ids(init) == ids' * Ids(init) by {
        forall k | k in Ids(init) ensures k in ids <==> k in ids' {
          assert k in Ids(rs);
          assert k in ids * Ids(rs) <==> k in ids' * Ids(rs);
        }
      }
      assert r.id in ids <==> r.id in ids' by {
        assert r.id in Ids(rs);
        assert r.id in ids * Ids(rs) <==> r.id in ids' * Ids(rs);
      }
      RemoveIdsRelevant(init, ids, ids');
    }
  }

  lemma {:induction false} RemoveNoIds(rs: seq<Region>)
    ensures RemoveIds(rs, {}) == rs
  {
    if rs != [] {
      RemoveNoIds(rs[..|rs| - 1]);
    }
  }

  /**
   * With unique ids, removing by the ids of a selection removes exactly that
   * selection: what is left is the complementary selection.
   */
  lemma {:induction false} RemoveSelected(dist: DistanceFunction, rs: seq<Region>, c: Coordinates, inside: bool)
    requires UniqueIds(rs)
    ensures RemoveIds(rs, Ids(Select(dist, rs, c, inside))) == Select(dist, rs, c, !inside)
  {
    if rs != [] {
      var init, r := rs[..|rs| - 1], rs[|rs| - 1];
      var sel0 := Select(dist, init, c, inside);
      var sel := Select(dist, rs, c, inside);
      RemoveSelected(dist, init, c, inside);
      assert Ids(sel0) <= Ids(init);
      if Inside(dist, r, c) == inside {
        assert Ids(sel) == Ids(sel0) + {r.id} by { assert sel == sel0 + [r]; }
        RemoveIdsRelevant(init, Ids(sel), Ids(sel0));
      } else {
        assert sel == sel0;
      }
    }
  }

  lemma {:induction false} SelectAll(dist: DistanceFunction, rs: seq<Region>, c: Coordinates, inside: bool)
    requires forall r :: r in rs ==> Inside(dist, r, c) == inside
    ensures Select(dist, rs, c, inside) == rs
    ensures Select(dist, rs, c, !inside) == []
  {
    if rs != [] {
      var init := rs[..|rs| - 1];
      assert rs == init + [rs[|rs| - 1]];
      SelectAll(dist, init, c, inside);
    }
  }

  // ----- The transition -----

  /**
   * With unique ids on each side, a transition sorts every region by the new
   * location: the stayers keep their order and the movers are appended.
   */
  lemma TransitionSorts(dist: DistanceFunction, containing: seq<Region>, notContaining: seq<Region>, c: Coordinates)
    requires UniqueIds(containing) && UniqueIds(notContaining)
    ensures NextContaining(dist, containing, notContaining, c)
         == Select(dist, containing, c, true) + Select(dist, notContaining, c, true)
    ensures NextNotContaining(dist, containing, notContaining, c)
         == Select(dist, notContaining, c, false) + Select(dist, containing, c, false)
  {
    RemoveSelected(dist, containing, c, false);
    RemoveSelected(dist, notContaining, c, true);
  }

  /** The invariant the two arrays keep: unique ids, and together exactly the regions `all`. */
  predicate Partitioned(containing: seq<Region>, notContaining: seq<Region>, all: seq<Region>) {
    UniqueIds(containing + notContaining) && multiset(containing + notContaining) == multiset(all)
  }

  /** The arrays are already sorted by `c`: filtering either by membership of `c` keeps all of it. */
  predicate Matches(dist: DistanceFunction, containing: seq<Region>, notContaining: seq<Region>, c: Coordinates) {
    Select(dist, containing, c, true) == containing && Select(dist, notContaining, c, false) == notContaining
  }

  /** `Matches` means: every region in "containing" contains `c` and no region in "not containing" does. */
  lemma MatchesMembership(dist: DistanceFunction, containing: seq<Region>, notContaining: seq<Region>, c: Coordinates)
    ensures Matches(dist, containing, notContaining, c) <==>
              (forall r :: r in containing ==> Inside(dist, r, c)) && (forall r :: r in notContaining ==> !Inside(dist, r, c))
  {
    if (forall r :: r in containing ==> Inside(dist, r, c)) && (forall r :: r in notContaining ==> !Inside(dist, r, c)) {
      SelectAll(dist, containing, c, true);
      SelectAll(dist, notContaining, c, false);
    }
  }

  /** The initial partition of a configuration with unique ids is a partition. */
  lemma InitialPartition(dist: DistanceFunction, regions: seq<Region>, c: Coordinates)
    requires UniqueIds(regions)
    ensures Partitioned(Select(dist, regions, c, true), Select(dist, regions, c, false), regions)
  {
    SelectSplits(dist, regions, c);
    UniqueIdsPermutation(regions, Select(dist, regions, c, true) + Select(dist, regions, c, false));
  }

  /** The initial partition matches the initial location. */
  lemma InitialMatches(dist: DistanceFunction, regions: seq<Region>, c: Coordinates)
    ensures Matches(dist, Select(dist, regions, c, true), Select(dist, regions, c, false), c)
  {
    MatchesMembership(dist, Select(dist, regions, c, true), Select(dist, regions, c, false), c);
  }

  /** A transition moves regions between the arrays without adding or losing any. */
  lemma TransitionPermutes(dist: DistanceFunction, containing: seq<Region>, notContaining: seq<Region>, c: Coordinates)
    requires UniqueIds(containing) && UniqueIds(notContaining)
    ensures multiset(NextContaining(dist, containing, notContaining, c) + NextNotContaining(dist, containing, notContaining, c))
         == multiset(containing + notContaining)
  {
    TransitionSorts(dist, containing, notContaining, c);
    SelectSplits(dist, containing, c);
    SelectSplits(dist, notContaining, c);
  }

  /**
   * After a transition to `c`, membership matches `c`, whatever the ids: a
   * region that stays in an array was not selected to move, so its id is not
   * among the removed ones only when it already sat on the right side.
   */
  lemma TransitionMatches(dist: DistanceFunction, containing: seq<Region>, notContaining: seq<Region>, c: Coordinates)
    ensures Matches(dist, NextContaining(dist, containing, notContaining, c), NextNotContaining(dist, containing, notContaining, c), c)
  {
    var leaving, entering := Leaving(dist, containing, c), Entering(dist, notContaining, c);
    forall r | r in RemoveIds(containing, Ids(leaving)) ensures Inside(dist, r, c) {
      assert !Inside(dist, r, c) ==> r in leaving && r.id in Ids(leaving);
    }
    forall r | r in RemoveIds(notContaining, Ids(entering)) ensures !Inside(dist, r, c) {
      assert Inside(dist, r, c) ==> r in entering && r.id in Ids(entering);
    }
    MatchesMembership(dist, NextContaining(dist, containing, notContaining, c), NextNotContaining(dist, containing, notContaining, c), c);
  }

  /**
   * Why unique ids are needed for the partition: two regions sharing an id,
   * one still containing the new location and one not, both leave
   * "containing" while only the second reaches "not containing".
   */
  lemma DuplicateIdsLoseRegion(dist: DistanceFunction, stay: Region, go: Region, c: Coordinates)
    requires stay.id == go.id && Inside(dist, stay, c) && !Inside(dist, go, c)
    ensures NextContaining(dist, [stay, go], [], c) == []
    ensures NextNotContaining(dist, [stay, go], [], c) == [go]
    ensures multiset(NextContaining(dist, [stay, go], [], c) + NextNotContaining(dist, [stay, go], [], c)) != multiset([stay, go])
  {
    assert [stay, go][..1] == [stay];
    assert [stay][..0] == [];
    assert Select(dist, [stay], c, false) == [];
    assert Leaving(dist, [stay, go], c) == [go];
    assert Ids([go]) == {go.id};
    assert RemoveIds([stay], {go.id}) == [];
    assert RemoveIds([stay, go], {go.id}) == [];
    assert multiset([go])[stay] < multiset([stay, go])[stay];
  }

  /**
   * A transition keeps the partition: still unique ids, still exactly the same
   * regions, and afterwards membership matches the new location.
   */
  lemma TransitionKeepsPartition(dist: DistanceFunction, containing: seq<Region>, notContaining: seq<Region>,
                                 all: seq<Region>, c: Coordinates)
    requires Partitioned(containing, notContaining, all)
    ensures Partitioned(NextContaining(dist, containing, notContaining, c), NextNotContaining(dist, containing, notContaining, c), all)
    ensures Matches(dist, NextContaining(dist, containing, notContaining, c), NextNotContaining(dist, containing, notContaining, c), c)
  {
    UniqueIdsConcat(containing, notContaining);
    var next := NextContaining(dist, containing, notContaining, c) + NextNotContaining(dist, containing, notContaining, c);
    TransitionPermutes(dist, containing, notContaining, c);
    UniqueIdsPermutation(containing + notContaining, next);
    TransitionMatches(dist, containing, notContaining, c);
  }

  /** Arrays that already match `c` produce no event and stay as they are. */
  lemma NoEventsWhenMatching(dist: DistanceFunction, containing: seq<Region>, notContaining: seq<Region>, c: Coordinates)
    requires Matches(dist, containing, notContaining, c)
    ensures TransitionEvents(dist, containing, notContaining, c) == []
    ensures NextContaining(dist, containing, notContaining, c) == containing
    ensures NextNotContaining(dist, containing, notContaining, c) == notContaining
  {
    MatchesMembership(dist, containing, notContaining, c);
    SelectAll(dist, containing, c, true);
    SelectAll(dist, notContaining, c, false);
    assert Entering(dist, notContaining, c) == [] && Leaving(dist, containing, c) == [];
    assert Ids([]) == {};
    RemoveNoIds(containing);
    RemoveNoIds(notContaining);
    assert EnteredAll([]) == [] && ExitedAll([]) == [];
  }

  /**
   * No double fire: a second transition to the same coordinates emits nothing
   * and moves nothing, whatever the ids.
   */
  lemma NoDoubleFire(dist: DistanceFunction, containing: seq<Region>, notContaining: seq<Region>, c: Coordinates)
    ensures var c' := NextContaining(dist, containing, notContaining, c);
            var n' := NextNotContaining(dist, containing, notContaining, c);
            TransitionEvents(dist, c', n', c) == []
            && NextContaining(dist, c', n', c) == c' && NextNotContaining(dist, c', n', c) == n'
  {
    TransitionMatches(dist, containing, notContaining, c);
    NoEventsWhenMatching(dist, NextContaining(dist, containing, notContaining, c), NextNotContaining(dist, containing, notContaining, c), c);
  }

  /**
   * The enter-then-exit scenario: one region, a location far away, then its
   * center, then far away again emits one entry and then one exit.
   */
  lemma EnterThenExit(dist: DistanceFunction, r: Region, near: Coordinates, far: Coordinates)
    requires Inside(dist, r, near) && !Inside(dist, r, far)
    ensures TransitionEvents(dist, [], [r], near) == [Entered(r)]
    ensures NextContaining(dist, [], [r], near) == [r] && NextNotContaining(dist, [], [r], near) == []
    ensures TransitionEvents(dist, [r], [], far) == [Exited(r)]
    ensures NextContaining(dist, [r], [], far) == [] && NextNotContaining(dist, [r], [], far) == [r]
  {
    assert [r][..0] == [];
    assert Ids([]) == {};
    assert Select(dist, [r], near, true) == [r];
    assert Select(dist, [r], far, false) == [r];
    assert UniqueIds([r]);
    TransitionSorts(dist, [], [r], near);
    TransitionSorts(dist, [r], [], far);
  }
}
