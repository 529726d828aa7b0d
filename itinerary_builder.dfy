/** The list operations of the itinerary builder
    (src/components/ItineraryBuilder.tsx): drag-and-drop reordering through
    two `splice` calls on a copy, appending the first unused sample
    location, and the trip reminder. */
module ItineraryBuilder {
  import opened Wrappers
  import opened Notifications
  import opened RouteData

  // ---------------------------------------------------------------------------
  // `Array.prototype.splice`, as the JavaScript standard defines it for the
  // two calls `reorder` makes, including out-of-range indices.
  // ---------------------------------------------------------------------------

  /** A relative `start` argument resolved against a list of length `len`:
      negative values count from the end, and the result is clamped to 0..len. */
  function ClampIndex(i: int, len: nat): (r: nat)
    ensures r <= len
    ensures 0 <= i <= len ==> r == i
    ensures i > len ==> r == len
  {
    if i < 0 then (if len + i < 0 then 0 else len + i) else if i > len then len else i
  }

  /** `s.splice(start, 1)`: the list without the element at the resolved
      index, and that element, or nothing when the index is past the end. */
  function SpliceRemoveOne<T>(s: seq<T>, start: int): (seq<T>, Option<T>) {
    var k := ClampIndex(start, |s|);
    if k < |s| then (s[..k] + s[k + 1..], Some(s[k])) else (s, None)
  }

  /** `s.splice(at, 0, x)`: `x` inserted before the resolved index. */
  function SpliceInsert<T>(s: seq<T>, at: int, x: T): seq<T> {
    var k := ClampIndex(at, |s|);
    s[..k] + [x] + s[k..]
  }

  /** Every element wrapped as a defined value. */
  function Lift<T>(s: seq<T>): (r: seq<Option<T>>)
    ensures |r| == |s| && forall i :: 0 <= i < |s| ==> r[i] == Some(s[i])
  {
    seq(|s|, i requires 0 <= i < |s| => Some(s[i]))
  }

  /** `reorder(list, startIndex, endIndex)` for any indices, with `None`
      standing for `undefined`: when the first `splice` removes nothing,
      `const [removed] = ...` binds `undefined` and the second `splice`
      inserts it. */
  function JsReorder<T>(list: seq<T>, startIndex: int, endIndex: int): (r: seq<Option<T>>)
    ensures ClampIndex(startIndex, |list|) < |list| ==> multiset(r) == multiset(Lift(list))
    ensures ClampIndex(startIndex, |list|) >= |list| ==> multiset(r) == multiset(Lift(list)) + multiset{None}
  {
    var s := Lift(list);
    var (rest, removed) := SpliceRemoveOne(s, startIndex);
    var x := if removed.Some? then removed.value else None;
    var k := ClampIndex(startIndex, |s|);
    if k < |s| then
      MultisetRemoveAt(s, k);
      MultisetInsertAt(rest, ClampIndex(endIndex, |rest|), x);
      SpliceInsert(rest, endIndex, x)
    else
      MultisetInsertAt(rest, ClampIndex(endIndex, |rest|), x);
      SpliceInsert(rest, endIndex, x)
  }

  // ---------------------------------------------------------------------------
  // `reorder` at the indices a drag-and-drop library reports.
  // ---------------------------------------------------------------------------

  /** Both indices address an element of a list of length `n`. */
  predicate ValidMove(n: int, startIndex: int, endIndex: int) {
    0 <= startIndex < n && 0 <= endIndex < n
  }

  /** The reordered list: the element at `startIndex` taken out and put back
      so that it sits at `endIndex`. Elements outside the span between the
      two indices stay where they were; those inside shift by one towards
      the vacated slot. */
  function Reordered<T>(s: seq<T>, startIndex: int, endIndex: int): (r: seq<T>)
    requires ValidMove(|s|, startIndex, endIndex)
    ensures |r| == |s| && r[endIndex] == s[startIndex]
    ensures forall k :: 0 <= k < |s| && k < startIndex && k < endIndex ==> r[k] == s[k]
    ensures forall k :: 0 <= k < |s| && k > startIndex && k > endIndex ==> r[k] == s[k]
    ensures forall k :: startIndex <= k < endIndex ==> r[k] == s[k + 1]
    ensures forall k :: endIndex < k <= startIndex ==> r[k] == s[k - 1]
  {
    var rest := s[..startIndex] + s[startIndex + 1..];
    rest[..endIndex] + [s[startIndex]] + rest[endIndex..]
  }

  /** `reorder`: `Array.from` copies the list into a fresh array, which is
      then rearranged in place; the caller's array is only read. The two
      `splice` calls on the copy are performed as one shift of the elements
      between the two indices followed by a store of the removed element. */
  method Reorder<T>(list: array<T>, startIndex: int, endIndex: int) returns (result: array<T>)
    requires ValidMove(list.Length, startIndex, endIndex)
    ensures fresh(result)
    ensures result[..] == Reordered(list[..], startIndex, endIndex)
  {
    result := new T[list.Length](i reads list requires 0 <= i < list.Length => list[i]);
    ghost var s := result[..];
    assert s == list[..];
    var removed := result[startIndex];
    if startIndex < endIndex {
      ShiftDown(result, startIndex, endIndex);
    } else {
      ShiftUp(result, endIndex, startIndex);
    }
    result[endIndex] := removed;
    ReorderedPointwise(s, result[..], startIndex, endIndex);
  }

  /** The first `splice` when the element moves right: the elements after
      `lo` up to `hi` each move one slot left; the others stay. */
  method ShiftDown<T>(a: array<T>, lo: int, hi: int)
    requires 0 <= lo <= hi < a.Length
    modifies a
    ensures forall k :: 0 <= k < lo ==> a[k] == old(a[k])
    ensures forall k :: lo <= k < hi ==> a[k] == old(a[k + 1])
    ensures forall k :: hi <= k < a.Length ==> a[k] == old(a[k])
  {
    var i := lo;
    while i < hi
      invariant lo <= i <= hi
      invariant forall k :: 0 <= k < lo ==> a[k] == old(a[k])
      invariant forall k :: lo <= k < i ==> a[k] == old(a[k + 1])
      invariant forall k :: i <= k < a.Length ==> a[k] == old(a[k])
    {
      a[i] := a[i + 1];
      i := i + 1;
    }
  }

  /** The first `splice` when the element moves left: the elements from
      `lo` up to before `hi` each move one slot right; the others stay. */
  method ShiftUp<T>(a: array<T>, lo: int, hi: int)
    requires 0 <= lo <= hi < a.Length
    modifies a
    ensures forall k :: 0 <= k <= lo ==> a[k] == old(a[k])
    ensures forall k :: lo < k <= hi ==> a[k] == old(a[k - 1])
    ensures forall k :: hi < k < a.Length ==> a[k] == old(a[k])
  {
    var i := hi;
    while i > lo
      invariant lo <= i <= hi
      invariant forall k :: 0 <= k <= i ==> a[k] == old(a[k])
      invariant forall k :: i < k <= hi ==> a[k] == old(a[k - 1])
      invariant forall k :: hi < k < a.Length ==> a[k] == old(a[k])
    {
      a[i] := a[i - 1];
      i := i - 1;
    }
  }

  /** A list of the same length that agrees with the reordered list's
      description at every index is the reordered list. */
  lemma ReorderedPointwise<T>(s: seq<T>, r: seq<T>, startIndex: int, endIndex: int)
    requires ValidMove(|s|, startIndex, endIndex)
    requires |r| == |s| && r[endIndex] == s[startIndex]
    requires forall k :: 0 <= k < |s| && k < startIndex && k < endIndex ==> r[k] == s[k]
    requires forall k :: 0 <= k < |s| && k > startIndex && k > endIndex ==> r[k] == s[k]
    requires forall k :: startIndex <= k < endIndex ==> r[k] == s[k + 1]
    requires forall k :: endIndex < k <= startIndex ==> r[k] == s[k - 1]
    ensures r == Reordered(s, startIndex, endIndex)
  {
    var expected := Reordered(s, startIndex, endIndex);
    forall k | 0 <= k < |s| ensures r[k] == expected[k] {
    }
  }

  /** The list without its element at `i`. */
  function RemoveAt<T>(s: seq<T>, i: int): seq<T>
    requires 0 <= i < |s|
  {
    s[..i] + s[i + 1..]
  }

  /** Taking out the element at `i` takes one copy of it out of the multiset. */
  lemma MultisetRemoveAt<T>(s: seq<T>, i: int)
    requires 0 <= i < |s|
    ensures multiset(s) == multiset(s[..i] + s[i + 1..]) + multiset{s[i]}
  {
    assert s == s[..i] + [s[i]] + s[i + 1..];
  }

  /** Inserting `x` at `e` adds one copy of it to the multiset. */
  lemma MultisetInsertAt<T>(s: seq<T>, e: int, x: T)
    requires 0 <= e <= |s|
    ensures multiset(s[..e] + [x] + s[e..]) == multiset(s) + multiset{x}
  {
    assert s == s[..e] + s[e..];
  }

  /** Reordering keeps the length and exactly the same elements. */
  lemma ReorderPreservesElements<T>(s: seq<T>, startIndex: int, endIndex: int)
    requires ValidMove(|s|, startIndex, endIndex)
    ensures |Reordered(s, startIndex, endIndex)| == |s|
    ensures multiset(Reordered(s, startIndex, endIndex)) == multiset(s)
  {
    var rest := s[..startIndex] + s[startIndex + 1..];
    MultisetRemoveAt(s, startIndex);
    MultisetInsertAt(rest, endIndex, s[startIndex]);
  }

  /** Apart from the moved element, the order is untouched: removing the
      element at its new place leaves what removing it at its old place
      leaves. */
  lemma ReorderKeepsRelativeOrder<T>(s: seq<T>, startIndex: int, endIndex: int)
    requires ValidMove(|s|, startIndex, endIndex)
    ensures RemoveAt(Reordered(s, startIndex, endIndex), endIndex) == RemoveAt(s, startIndex)
  {
    var rest := s[..startIndex] + s[startIndex + 1..];
    var r := Reordered(s, startIndex, endIndex);
    assert r == rest[..endIndex] + [s[startIndex]] + rest[endIndex..];
    assert r[..endIndex] == rest[..endIndex];
    assert r[endIndex + 1..] == rest[endIndex..];
    assert rest == rest[..endIndex] + rest[endIndex..];
  }

  /** Dragging the element back undoes the move. */
  lemma ReorderInverse<T>(s: seq<T>, startIndex: int, endIndex: int)
    requires ValidMove(|s|, startIndex, endIndex)
    ensures Reordered(Reordered(s, startIndex, endIndex), endIndex, startIndex) == s
  {
    var r := Reordered(s, startIndex, endIndex);
    var t := Reordered(r, endIndex, startIndex);
    forall k | 0 <= k < |s| ensures t[k] == s[k] {
      if k == startIndex {
      } else if startIndex < endIndex && startIndex < k <= endIndex {
        assert t[k] == r[k - 1];
      } else if endIndex < startIndex && endIndex <= k < startIndex {
        assert t[k] == r[k + 1];
      }
    }
  }

  /** Lifting commutes with taking out the element at `i`. */
  lemma LiftRemoveAt<T>(s: seq<T>, i: int)
    requires 0 <= i < |s|
    ensures Lift(s)[..i] + Lift(s)[i + 1..] == Lift(s[..i] + s[i + 1..])
    ensures Lift(s)[i] == Some(s[i])
  {
    var l, r := Lift(s)[..i] + Lift(s)[i + 1..], Lift(s[..i] + s[i + 1..]);
    forall k | 0 <= k < |r| ensures l[k] == r[k] {
      if k < i {
        assert l[k] == Lift(s)[k];
      } else {
        assert l[k] == Lift(s)[k + 1];
      }
    }
  }

  /** Lifting commutes with inserting `x` at `e`. */
  lemma LiftInsertAt<T>(s: seq<T>, e: int, x: T)
    requires 0 <= e <= |s|
    ensures Lift(s[..e] + [x] + s[e..]) == Lift(s)[..e] + [Some(x)] + Lift(s)[e..]
  {
    var l, r := Lift(s[..e] + [x] + s[e..]), Lift(s)[..e] + [Some(x)] + Lift(s)[e..];
    forall k | 0 <= k < |l| ensures l[k] == r[k] {
      if k < e {
        assert r[k] == Lift(s)[k];
      } else if k > e {
        assert r[k] == Lift(s)[k - 1];
      }
    }
  }

  /** At valid indices the `splice` pair is exactly `Reordered`, every
      element defined. */
  lemma JsReorderValid<T>(s: seq<T>, startIndex: int, endIndex: int)
    requires ValidMove(|s|, startIndex, endIndex)
    ensures JsReorder(s, startIndex, endIndex) == Lift(Reordered(s, startIndex, endIndex))
  {
    var x := s[startIndex];
    var srest := s[..startIndex] + s[startIndex + 1..];
    LiftRemoveAt(s, startIndex);
    LiftInsertAt(srest, endIndex, x);
    assert ClampIndex(endIndex, |srest|) == endIndex;
    assert Reordered(s, startIndex, endIndex) == srest[..endIndex] + [x] + srest[endIndex..];
  }

  /** Out-of-range indices are not a no-op: the length grows by one exactly
      when the first `splice` finds nothing to remove. */
  lemma JsReorderLength<T>(s: seq<T>, startIndex: int, endIndex: int)
    ensures |JsReorder(s, startIndex, endIndex)| == if ClampIndex(startIndex, |s|) < |s| then |s| else |s| + 1
  {
  }

  /** A start index past the end inserts `undefined` into the list. */
  lemma JsReorderPastEndInsertsUndefined<T>(s: seq<T>, startIndex: int, endIndex: int)
    requires startIndex >= |s|
    ensures |JsReorder(s, startIndex, endIndex)| == |s| + 1
    ensures None in JsReorder(s, startIndex, endIndex)
  {
    var r := JsReorder(s, startIndex, endIndex);
    var k := ClampIndex(endIndex, |s|);
    assert r[k] == None;
  }

  /** Moving the first of three entries to the last place. */
  lemma ReorderExample()
    ensures Reordered(["A", "B", "C"], 0, 2) == ["B", "C", "A"]
  {
  }

  // ---------------------------------------------------------------------------
  // The handlers. Each returns the list it hands to `onLocationsChange`, if
  // any, and the notifications it raises, in order.
  // ---------------------------------------------------------------------------

  /** What a handler hands to its parent and to the notifier. */
  datatype ViewUpdate = ViewUpdate(newLocations: Option<seq<Location>>, notes: seq<NoteRequest>)

  /** The part of `DropResult` the handler reads: the source index and the
      destination index, absent when the item is dropped outside the list. */
  datatype DropResult = DropResult(sourceIndex: int, destination: Option<int>)

  /** `onDragEnd`. A drop without destination changes nothing and raises no
      notification; any other drop hands on the reordered list, with the moved
      entry at its destination and the same entries overall, and confirms. */
  function OnDragEnd(locations: seq<Location>, drop: DropResult): (u: ViewUpdate)
    requires drop.destination.Some? ==> ValidMove(|locations|, drop.sourceIndex, drop.destination.value)
    ensures drop.destination.None? <==> u == ViewUpdate(None, [])
    ensures drop.destination.Some? ==>
              && u.newLocations.Some?
              && |u.newLocations.value| == |locations|
              && multiset(u.newLocations.value) == multiset(locations)
              && u.newLocations.value[drop.destination.value] == locations[drop.sourceIndex]
              && u.newLocations == Some(Reordered(locations, drop.sourceIndex, drop.destination.value))
              && u.notes == [NotifyFor("Itinerary order updated!", Success, 2000)]
  {
    if drop.destination.None? then ViewUpdate(None, [])
    else
      ReorderPreservesElements(locations, drop.sourceIndex, drop.destination.value);
      ViewUpdate(Some(Reordered(locations, drop.sourceIndex, drop.destination.value)),
                 [NotifyFor("Itinerary order updated!", Success, 2000)])
  }

  /** The ids of a list of locations, in order (`locations.map(loc => loc.id)`). */
  function Ids(locations: seq<Location>): (r: seq<string>)
    ensures |r| == |locations| && forall i :: 0 <= i < |locations| ==> r[i] == locations[i].id
  {
    seq(|locations|, i requires 0 <= i < |locations| => locations[i].id)
  }

  /** `pool.find(loc => !existingIds.includes(loc.id))`: the first pool entry
      whose id is not taken yet. */
  function FirstUnused(pool: seq<Location>, existingIds: seq<string>): (r: Option<Location>)
    ensures r.None? <==> forall i :: 0 <= i < |pool| ==> pool[i].id in existingIds
    ensures r.Some? ==> exists k :: 0 <= k < |pool| && pool[k] == r.value && r.value.id !in existingIds
                                    && forall j :: 0 <= j < k ==> pool[j].id in existingIds
  {
    if pool == [] then None
    else if pool[0].id !in existingIds then Some(pool[0])
    else FirstUnused(pool[1..], existingIds)
  }

  /** `handleAddDestination` over the sample pool: the first pool entry whose
      id is not yet in the itinerary is appended after the existing entries
      and announced; when every pool id is taken, nothing is handed on and
      a warning is raised. */
  function HandleAddDestination(pool: seq<Location>, locations: seq<Location>): (u: ViewUpdate)
    ensures u.newLocations.None? <==> forall i :: 0 <= i < |pool| ==> pool[i].id in Ids(locations)
    ensures u.newLocations.None? ==> u.notes == [Notify("No more unique locations to add from sample data.", Warning)]
    ensures u.newLocations.Some? ==>
              && |u.newLocations.value| == |locations| + 1
              && u.newLocations.value[..|locations|] == locations
              && u.newLocations.value[|locations|] in pool
              && u.newLocations.value[|locations|].id !in Ids(locations)
              && (exists k :: 0 <= k < |pool| && pool[k] == u.newLocations.value[|locations|]
                              && forall j :: 0 <= j < k ==> pool[j].id in Ids(locations))
              && FirstUnused(pool, Ids(locations)).Some?
              && u.newLocations.value == locations + [FirstUnused(pool, Ids(locations)).value]
              && u.notes == [Notify(u.newLocations.value[|locations|].name + " added to itinerary!", Info)]
  {
    var newLocation := FirstUnused(pool, Ids(locations));
    if newLocation.Some? then
      ViewUpdate(Some(locations + [newLocation.value]), [Notify(newLocation.value.name + " added to itinerary!", Info)])
    else
      ViewUpdate(None, [Notify("No more unique locations to add from sample data.", Warning)])
  }

  /** Appending the first unused entry keeps the itinerary's ids distinct. */
  lemma AddDestinationKeepsIdsDistinct(pool: seq<Location>, locations: seq<Location>)
    requires DistinctIds(locations)
    ensures HandleAddDestination(pool, locations).newLocations.Some? ==>
              DistinctIds(HandleAddDestination(pool, locations).newLocations.value)
  {
    var u := HandleAddDestination(pool, locations);
    if u.newLocations.Some? {
      var r := u.newLocations.value;
      var n := |locations|;
      forall i, j | 0 <= i < j < |r| ensures r[i].id != r[j].id {
        if j == n {
          assert r[i] == locations[i];
          assert Ids(locations)[i] == r[i].id;
        } else {
          assert r[i] == locations[i] && r[j] == locations[j];
        }
      }
    }
  }

  /** Starting from the three-entry initial itinerary, the fourth sample
      location (Sacré-Cœur) is the one added. */
  lemma AddDestinationFromInitialItinerary()
    ensures HandleAddDestination(SampleLocations, SampleLocations[..3]).newLocations == Some(SampleLocations[..3] + [SacreCoeur])
  {
    SampleIdsDistinct();
    var ids := Ids(SampleLocations[..3]);
    assert ids == ["loc1", "loc2", "loc3"];
    assert SampleLocations[3].id !in ids;
    assert forall j :: 0 <= j < 3 ==> SampleLocations[j].id in ids;
    var r := FirstUnused(SampleLocations, ids);
    var k :| 0 <= k < |SampleLocations| && SampleLocations[k] == r.value && r.value.id !in ids
              && forall j :: 0 <= j < k ==> SampleLocations[j].id in ids;
    assert k == 3;
  }

  /** `handleTripAlert`: a five-second reminder naming the first entry, or a
      warning when the itinerary is empty. */
  function HandleTripAlert(locations: seq<Location>): (n: NoteRequest)
    ensures n.kind == Some(if locations == [] then Warning else Info)
    ensures locations != [] ==> n == NotifyFor("Reminder: Time to leave for " + locations[0].name + "!", Info, 5000)
    ensures locations == [] ==> n == Notify("Your itinerary is empty.", Warning)
  {
    if |locations| > 0 then NotifyFor("Reminder: Time to leave for " + locations[0].name + "!", Info, 5000)
    else Notify("Your itinerary is empty.", Warning)
  }
}
