/**
 * Overrides on documents whose mappings may be shared in any way, as in a document with aliases: when a caller's mapping
 * is written, told from the document as it is before the call.
 */
module SharedDocuments {
  import opened Prelude
  import opened FieldPaths
  import opened FieldOverrides
  import opened OverrideSharing

  // ---------------------------------------------------------------------------
  // Walks that come to a caller's mapping
  // ---------------------------------------------------------------------------

  /** The walk to the last segment comes to one of these mappings. */
  ghost predicate Visits(cells: Cells, m: Mapping, path: Path, theirs: set<Mapping>)
    decreases |path|
  {
    || m in theirs
    || (|path| > 1 && m in cells && path[0] in cells[m] && cells[m][path[0]].Sub?
        && Visits(cells, cells[m][path[0]].mapping, path[1..], theirs))
  }

  /** From these mappings references lead only to these mappings. */
  ghost predicate Inward(cells: Cells, theirs: set<Mapping>) {
    forall m, k :: m in theirs && m in cells && k in cells[m] && cells[m][k].Sub? ==> cells[m][k].mapping in theirs
  }

  lemma {:induction false} TargetIsVisited(cells: Cells, m: Mapping, path: Path, theirs: set<Mapping>)
    requires path != [] && InTheWay(cells, m, path) == None
    ensures Target(cells, m, path).mapping in theirs ==> Visits(cells, m, path, theirs)
    ensures Inward(cells, theirs) && Visits(cells, m, path, theirs) ==> Target(cells, m, path).mapping in theirs
    decreases |path|
  {
    if |path| > 1 && m in cells && path[0] in cells[m] {
      TargetIsVisited(cells, cells[m][path[0]].mapping, path[1..], theirs);
    }
  }

  ghost predicate NoVisits(states: seq<Cells>, root: Mapping, order: seq<string>, theirs: set<Mapping>, n: nat)
    requires n <= |order| <= |states|
  {
    forall k :: 0 <= k < n ==> !Visits(states[k], root, Split(order[k], '.'), theirs)
  }

  /** As long as no walk comes to these mappings they stay as they were. */
  lemma {:induction false} NotVisited(states: seq<Cells>, root: Mapping, overrides: map<string, Entry>,
                                      order: seq<string>, theirs: set<Mapping>, n: nat)
    requires Run(states, root, overrides, order) && n <= |order| && NoVisits(states, root, order, theirs, n)
    requires theirs <= states[0].Keys
    ensures forall x :: x in theirs ==> x in states[n] && states[n][x] == states[0][x]
    decreases n
  {
    hide SetTo, Split, Visits;
    if n > 0 {
      NotVisited(states, root, overrides, order, theirs, n - 1);
      var path := Split(order[n - 1], '.');
      OnlyTargetWritten(states[n - 1], states[n], root, path, overrides[order[n - 1]]);
      TargetIsVisited(states[n - 1], root, path, theirs);
    }
  }

  lemma {:induction false} FirstVisit(states: seq<Cells>, root: Mapping, order: seq<string>, theirs: set<Mapping>, n: nat)
    returns (k: nat)
    requires n <= |order| <= |states| && !NoVisits(states, root, order, theirs, n)
    ensures k < n && Visits(states[k], root, Split(order[k], '.'), theirs) && NoVisits(states, root, order, theirs, k)
  {
    hide Visits;
    if NoVisits(states, root, order, theirs, n - 1) {
      k := n - 1;
    } else {
      k := FirstVisit(states, root, order, theirs, n - 1);
    }
  }

  /** Override `k` writes one of these mappings. */
  ghost predicate Writes(states: seq<Cells>, root: Mapping, order: seq<string>, k: nat, theirs: set<Mapping>) {
    k < |states| && k < |order| && Target(states[k], root, Split(order[k], '.')).mapping in theirs
  }

  /**
   * Whatever the document and the values share: a mapping that existed before the call is written exactly when the
   * walk of some applied override comes to one, and otherwise all of them stay as they were.
   */
  lemma CallerIsWrittenByWalks(before: Cells, document: Mapping, image: Image, states: seq<Cells>,
                               overrides: map<string, Entry>, order: seq<string>, error: Option<PathError>)
    requires Closed(before) && states != [] && Copied(before, states[0], document, image)
    requires Outcome(states, image[document], overrides, order, error)
    ensures var applied := order[..|states| - 1];
            && ((exists k :: 0 <= k < |applied| && Writes(states, image[document], applied, k, before.Keys))
                <==> !NoVisits(states, image[document], applied, before.Keys, |applied|))
            && (NoVisits(states, image[document], applied, before.Keys, |applied|) ==>
                  forall i, x :: 0 <= i < |states| && x in before ==> x in states[i] && states[i][x] == before[x])
  {
    hide Visits, SetTo, Split;
    var applied, root, theirs := order[..|states| - 1], image[document], before.Keys;
    forall k | 0 <= k < |applied| && Writes(states, root, applied, k, theirs)
      ensures Visits(states[k], root, Split(applied[k], '.'), theirs)
    {
      OnlyTargetWritten(states[k], states[k + 1], root, Split(applied[k], '.'), overrides[applied[k]]);
      TargetIsVisited(states[k], root, Split(applied[k], '.'), theirs);
    }
    if NoVisits(states, root, applied, theirs, |applied|) {
      forall i, x | 0 <= i < |states| && x in before ensures x in states[i] && states[i][x] == before[x] {
        NotVisited(states, root, overrides, applied, theirs, i);
      }
    } else {
      var k := FirstVisit(states, root, applied, theirs, |applied|);
      NotVisited(states, root, overrides, applied, theirs, k);
      assert Inward(states[k], theirs) by {
        forall m, j | m in theirs && j in states[k][m] && states[k][m][j].Sub? ensures states[k][m][j].mapping in theirs {
          assert Known(before, before[m][j]);
        }
      }
      OnlyTargetWritten(states[k], states[k + 1], root, Split(applied[k], '.'), overrides[applied[k]]);
      TargetIsVisited(states[k], root, Split(applied[k], '.'), theirs);
      assert Writes(states, root, applied, k, theirs);
    }
  }

  // ---------------------------------------------------------------------------
  // Where the mappings hang
  // ---------------------------------------------------------------------------

  /** For each mapping of the copy itself, and for each made since the mapping of the copy it hangs from and the way. */
  type Places = map<Mapping, Spot>

  function At(place: Spot, key: string): Spot {
    Spot(place.mapping, place.rest + [key])
  }

  predicate Above(place: Spot, other: Spot) {
    place.mapping == other.mapping && place.rest <= other.rest
  }

  /** Where a set with this path, starting at a place, ends up in the copy as it was at first. */
  function Place(base: Cells, place: Spot, path: Path): Spot
    requires path != []
  {
    if place.rest == [] then Target(base, place.mapping, path) else Spot(place.mapping, place.rest + path)
  }

  predicate Unchanged(base: Cells, cells: Cells, m: Mapping, k: string)
    requires m in cells && k in cells[m]
  {
    m in base && k in base[m] && base[m][k] == cells[m][k]
  }

  /** An entry is the one the copy had, or leads to a mapping made in an empty place, or was stored by an override. */
  ghost predicate Placed(base: Cells, cells: Cells, places: Places, theirs: set<Mapping>, stored: seq<Spot>, m: Mapping,
                         k: string)
    requires m in places && m in cells && k in cells[m]
  {
    match cells[m][k]
    case Leaf(_) => Unchanged(base, cells, m, k) || At(places[m], k) in stored
    case Sub(n) =>
      || (n in base && n in places && Unchanged(base, cells, m, k))
      || (n in places && places[n] == At(places[m], k) && (m in base ==> k !in base[m]))
      || (n in theirs && At(places[m], k) in stored)
  }

  ghost predicate Rooted(base: Cells, cells: Cells, places: Places, theirs: set<Mapping>) {
    && base.Keys <= cells.Keys && places.Keys <= cells.Keys && theirs <= base.Keys && places.Keys !! theirs
    && (forall m :: m in places && places[m].rest == [] ==> m in base && places[m].mapping == m)
    && (forall m :: m in base && m in places ==> places[m] == Spot(m, []))
    && (forall m, n :: m in places && n in places && places[m] == places[n] ==> m == n)
    && forall m, k :: m in places && m in base && k in base[m] ==> k in cells[m]
  }

  ghost predicate EntriesPlaced(base: Cells, cells: Cells, places: Places, theirs: set<Mapping>, stored: seq<Spot>) {
    forall m, k {:trigger Placed(base, cells, places, theirs, stored, m, k)} ::
      m in places && m in cells && k in cells[m] ==> Placed(base, cells, places, theirs, stored, m, k)
  }

  /** Above this place no entry is absent. */
  ghost predicate Present(cells: Cells, places: Places, s: Spot) {
    forall m, k :: m in places && Above(At(places[m], k), s) ==> m in cells && k in cells[m]
  }

  /** What lies at this place is not a mapping of the copy. */
  ghost predicate Settled(cells: Cells, places: Places, theirs: set<Mapping>, s: Spot) {
    forall m, k :: m in places && At(places[m], k) == s ==>
      m in cells && k in cells[m] && (cells[m][k].Leaf? || cells[m][k].mapping in theirs)
  }

  ghost predicate Taken(cells: Cells, places: Places, theirs: set<Mapping>, stored: seq<Spot>) {
    && (forall m :: m in places ==> Present(cells, places, places[m]))
    && (forall s :: s in stored ==> Present(cells, places, s) && Settled(cells, places, theirs, s))
  }

  /** The copy after overrides that stored their values at these places. */
  ghost predicate Grown(base: Cells, cells: Cells, places: Places, theirs: set<Mapping>, stored: seq<Spot>) {
    && Rooted(base, cells, places, theirs)
    && EntriesPlaced(base, cells, places, theirs, stored)
    && Taken(cells, places, theirs, stored)
  }

  /** One step of a walk, in the present state and in the first. */
  lemma OneStep(base: Cells, cells: Cells, places: Places, theirs: set<Mapping>, stored: seq<Spot>, m: Mapping, path: Path)
    requires Grown(base, cells, places, theirs, stored) && m in places && |path| > 1
    ensures m in cells
    ensures path[0] !in cells[m] ==>
              Place(base, places[m], path) == Spot(places[m].mapping, places[m].rest + path)
    ensures path[0] in cells[m] && cells[m][path[0]].Sub? ==>
              var n := cells[m][path[0]].mapping;
              && (n in places || n in theirs)
              && (n in places ==> n !in theirs && Place(base, places[n], path[1..]) == Place(base, places[m], path))
              && (n in theirs ==> At(places[m], path[0]) in stored)
    ensures Place(base, places[m], path[..1]) == At(places[m], path[0])
  {
    var key := path[0];
    if key in cells[m] && cells[m][key].Sub? {
      assert Placed(base, cells, places, theirs, stored, m, key);
      assert places[m].rest + path == places[m].rest + [key] + path[1..];
    }
    assert path[..1] == [key];
  }

  /** A walk that comes to a mapping that was not copied passes a place where an override stored something. */
  lemma {:induction false} VisitsThrough(base: Cells, cells: Cells, places: Places, theirs: set<Mapping>,
                                         stored: seq<Spot>, m: Mapping, path: Path)
    returns (i: nat)
    requires Grown(base, cells, places, theirs, stored) && m in places && Visits(cells, m, path, theirs)
    ensures 0 < i < |path| && Place(base, places[m], path[..i]) in stored
    decreases |path|
  {
    hide Grown, Place, At;
    NotTheirs(base, cells, places, theirs, stored, m);
    OneStep(base, cells, places, theirs, stored, m, path);
    var n := cells[m][path[0]].mapping;
    if n in theirs {
      i := 1;
    } else {
      i := VisitsThrough(base, cells, places, theirs, stored, n, path[1..]);
      assert path[1..][..i] == path[..i + 1][1..];
      OneStep(base, cells, places, theirs, stored, m, path[..i + 1]);
      i := i + 1;
    }
  }

  lemma NotTheirs(base: Cells, cells: Cells, places: Places, theirs: set<Mapping>, stored: seq<Spot>, m: Mapping)
    requires Grown(base, cells, places, theirs, stored) && m in places
    ensures m !in theirs && m in cells
  {
  }

  lemma StoredThere(base: Cells, cells: Cells, places: Places, theirs: set<Mapping>, stored: seq<Spot>, m: Mapping,
                    k: string, s: Spot)
    requires Grown(base, cells, places, theirs, stored) && m in places && s in stored
    ensures m in cells
    ensures Above(At(places[m], k), s) ==> k in cells[m]
    ensures s == At(places[m], k) ==> k in cells[m] && (cells[m][k].Leaf? || cells[m][k].mapping in theirs)
  {
  }

  /** And a walk that passes such a place, and is not refused, comes to a mapping that was not copied. */
  lemma {:induction false} ThroughVisits(base: Cells, cells: Cells, places: Places, theirs: set<Mapping>,
                                         stored: seq<Spot>, m: Mapping, prefix: Path, path: Path)
    requires Grown(base, cells, places, theirs, stored) && m in places && InTheWay(cells, m, path) == None
    requires prefix != [] && prefix < path && Place(base, places[m], prefix) in stored
    ensures Visits(cells, m, path, theirs)
    decreases |prefix|
  {
    hide Grown, Place;
    OneStep(base, cells, places, theirs, stored, m, path);
    var s := Place(base, places[m], prefix);
    StoredThere(base, cells, places, theirs, stored, m, path[0], s);
    if |prefix| == 1 {
      assert prefix == path[..1];
    } else {
      OneStep(base, cells, places, theirs, stored, m, prefix);
      assert prefix == [path[0]] + prefix[1..];
      assert places[m].rest + prefix == places[m].rest + [path[0]] + prefix[1..];
      var n := cells[m][path[0]].mapping;
      if n in places {
        ThroughVisits(base, cells, places, theirs, stored, n, prefix[1..], path[1..]);
      }
    }
  }

  /** A value is stored in a mapping of the copy, or in one made since. */
  lemma StorePlaced(base: Cells, cells: Cells, places: Places, theirs: set<Mapping>, stored: seq<Spot>, m: Mapping,
                    key: string, value: Entry, after: Cells)
    requires Grown(base, cells, places, theirs, stored) && m in places && m in cells
    requires after == cells[m := cells[m][key := value]] && (value.Sub? ==> value.mapping in theirs)
    ensures Grown(base, after, places, theirs, stored + [At(places[m], key)])
  {
    hide Taken;
    StoreTaken(base, cells, places, theirs, stored, m, key, value, after);
    var more := stored + [At(places[m], key)];
    forall x, k | x in places && x in after && k in after[x] ensures Placed(base, after, places, theirs, more, x, k) {
      if x != m || k != key {
        assert Placed(base, cells, places, theirs, stored, x, k);
      }
    }
  }

  lemma StoreTaken(base: Cells, cells: Cells, places: Places, theirs: set<Mapping>, stored: seq<Spot>, m: Mapping,
                   key: string, value: Entry, after: Cells)
    requires Rooted(base, cells, places, theirs) && Taken(cells, places, theirs, stored) && m in places && m in cells
    requires after == cells[m := cells[m][key := value]] && (value.Sub? ==> value.mapping in theirs)
    ensures Taken(after, places, theirs, stored + [At(places[m], key)])
  {
    hide At, Above, Present, Settled;
    forall n | n in places ensures Present(after, places, places[n]) {
      StillPresent(cells, after, places, places[n]);
    }
    forall s | s in stored ensures Present(after, places, s) && Settled(after, places, theirs, s) {
      StillPresent(cells, after, places, s);
      StillSettled(cells, places, theirs, m, key, value, after, s);
    }
    StoreHere(base, cells, places, theirs, stored, m, key, value, after);
  }

  lemma StillPresent(cells: Cells, after: Cells, places: Places, s: Spot)
    requires Present(cells, places, s)
    requires forall x, k :: x in cells && k in cells[x] ==> x in after && k in after[x]
    ensures Present(after, places, s)
  {
    hide At, Above;
  }

  lemma StillSettled(cells: Cells, places: Places, theirs: set<Mapping>, m: Mapping, key: string, value: Entry,
                     after: Cells, s: Spot)
    requires Settled(cells, places, theirs, s) && m in cells
    requires after == cells[m := cells[m][key := value]] && (value.Sub? ==> value.mapping in theirs)
    ensures Settled(after, places, theirs, s)
  {
    hide At;
  }

  lemma StoreHere(base: Cells, cells: Cells, places: Places, theirs: set<Mapping>, stored: seq<Spot>, m: Mapping,
                  key: string, value: Entry, after: Cells)
    requires Rooted(base, cells, places, theirs) && Taken(cells, places, theirs, stored) && m in places && m in cells
    requires after == cells[m := cells[m][key := value]] && (value.Sub? ==> value.mapping in theirs)
    ensures Present(after, places, At(places[m], key)) && Settled(after, places, theirs, At(places[m], key))
  {
    hide At, Above;
    var here := At(places[m], key);
    forall x, k | x in places && Above(At(places[x], k), here) ensures x in after && k in after[x] {
      StoreAbove(base, cells, places, theirs, stored, m, key, x, k);
    }
    forall x, k | x in places && At(places[x], k) == here ensures x == m && k == key {
      LastOf(places[x], k, places[m], key);
    }
  }

  lemma StoreAbove(base: Cells, cells: Cells, places: Places, theirs: set<Mapping>, stored: seq<Spot>, m: Mapping,
                   key: string, x: Mapping, k: string)
    requires Rooted(base, cells, places, theirs) && Taken(cells, places, theirs, stored)
    requires m in places && m in cells && x in places && Above(At(places[x], k), At(places[m], key))
    ensures x in cells && (k in cells[x] || (x == m && k == key))
  {
    hide At, Above;
    if At(places[x], k) == At(places[m], key) {
      LastOf(places[x], k, places[m], key);
    } else {
      AboveParent(At(places[x], k), places[m], key);
      assert Present(cells, places, places[m]);
    }
  }

  lemma LastOf(p: Spot, j: string, q: Spot, k: string)
    requires At(p, j) == At(q, k)
    ensures p == q && j == k
  {
    assert (p.rest + [j])[..|p.rest|] == p.rest && (q.rest + [k])[..|q.rest|] == q.rest;
    assert (p.rest + [j])[|p.rest|] == j && (q.rest + [k])[|q.rest|] == k;
  }

  lemma AboveParent(p: Spot, q: Spot, key: string)
    requires Above(p, At(q, key)) && p != At(q, key)
    ensures Above(p, q)
  {
    assert |p.rest| == |q.rest| + 1 ==> p.rest == q.rest + [key];
  }

  lemma AboveBelow(p: Spot, key: string, other: Spot)
    requires Above(At(p, key), other)
    ensures Above(p, other) && p != other
  {
  }

  /** A mapping is made where there was none. */
  lemma OpenPlaced(base: Cells, cells: Cells, places: Places, theirs: set<Mapping>, stored: seq<Spot>, m: Mapping,
                   key: string, made: Mapping)
    requires Grown(base, cells, places, theirs, stored) && m in places && m in cells && key !in cells[m] && made !in cells
    ensures made !in places && made !in theirs
    ensures Grown(base, Opened(cells, m, key, made), places[made := At(places[m], key)], theirs, stored)
  {
    OpenTaken(base, cells, places, theirs, stored, m, key, made);
    OpenRooted(base, cells, places, theirs, stored, m, key, made);
    OpenEntries(base, cells, places, theirs, stored, m, key, made);
  }

  lemma OpenRooted(base: Cells, cells: Cells, places: Places, theirs: set<Mapping>, stored: seq<Spot>, m: Mapping,
                   key: string, made: Mapping)
    requires Rooted(base, cells, places, theirs) && Taken(cells, places, theirs, stored)
    requires m in places && m in cells && key !in cells[m] && made !in cells
    ensures Rooted(base, Opened(cells, m, key, made), places[made := At(places[m], key)], theirs)
  {
    hide At, Above;
    forall n | n in places ensures places[n] != At(places[m], key) {
      AboveItself(places[n]);
      assert Present(cells, places, places[n]);
    }
    OpenRest(places[m], key);
  }

  lemma OpenEntries(base: Cells, cells: Cells, places: Places, theirs: set<Mapping>, stored: seq<Spot>, m: Mapping,
                    key: string, made: Mapping)
    requires Rooted(base, cells, places, theirs) && EntriesPlaced(base, cells, places, theirs, stored)
    requires m in places && m in cells && key !in cells[m] && made !in cells
    ensures EntriesPlaced(base, Opened(cells, m, key, made), places[made := At(places[m], key)], theirs, stored)
  {
    hide At;
    var mid, more := Opened(cells, m, key, made), places[made := At(places[m], key)];
    forall x, k | x in more && x in mid && k in mid[x] ensures Placed(base, mid, more, theirs, stored, x, k) {
      if x != made && (x != m || k != key) {
        assert Placed(base, cells, places, theirs, stored, x, k);
      }
    }
  }

  lemma OpenTaken(base: Cells, cells: Cells, places: Places, theirs: set<Mapping>, stored: seq<Spot>, m: Mapping,
                  key: string, made: Mapping)
    requires Rooted(base, cells, places, theirs) && Taken(cells, places, theirs, stored)
    requires m in places && m in cells && key !in cells[m] && made !in cells
    ensures Taken(Opened(cells, m, key, made), places[made := At(places[m], key)], theirs, stored)
  {
    hide At, Above, Present, Settled;
    var here := At(places[m], key);
    var mid: Cells, more: Places := Opened(cells, m, key, made), places[made := here];
    forall n | n in places ensures Present(mid, more, places[n]) {
      OpenPresent(cells, places, m, key, made, places[n]);
    }
    forall s | s in stored ensures Present(mid, more, s) && Settled(mid, more, theirs, s) {
      OpenPresent(cells, places, m, key, made, s);
      OpenSettled(cells, places, theirs, m, key, made, s);
    }
    OpenHere(base, cells, places, theirs, stored, m, key, made);
  }

  lemma OpenPresent(cells: Cells, places: Places, m: Mapping, key: string, made: Mapping, s: Spot)
    requires Present(cells, places, s) && m in places && m in cells && key !in cells[m] && made !in cells
    ensures Present(Opened(cells, m, key, made), places[made := At(places[m], key)], s)
  {
    hide At, Above;
    forall k | Above(At(At(places[m], key), k), s) ensures false {
      AboveBelow(At(places[m], key), k, s);
    }
  }

  lemma OpenSettled(cells: Cells, places: Places, theirs: set<Mapping>, m: Mapping, key: string, made: Mapping, s: Spot)
    requires Present(cells, places, s) && Settled(cells, places, theirs, s)
    requires m in places && m in cells && key !in cells[m] && made !in cells
    ensures Settled(Opened(cells, m, key, made), places[made := At(places[m], key)], theirs, s)
  {
    hide At, Above;
    forall k | At(At(places[m], key), k) == s ensures false {
      AboveItself(s);
      AboveBelow(At(places[m], key), k, s);
    }
  }

  lemma OpenHere(base: Cells, cells: Cells, places: Places, theirs: set<Mapping>, stored: seq<Spot>, m: Mapping,
                 key: string, made: Mapping)
    requires Rooted(base, cells, places, theirs) && Taken(cells, places, theirs, stored)
    requires m in places && m in cells && key !in cells[m] && made !in cells
    ensures Present(Opened(cells, m, key, made), places[made := At(places[m], key)], At(places[m], key))
  {
    hide At, Above;
    var here := At(places[m], key);
    forall k | Above(At(here, k), here) ensures false {
      AboveBelow(here, k, here);
    }
    forall x, k | x in places && Above(At(places[x], k), here) ensures k in Opened(cells, m, key, made)[x] {
      StoreAbove(base, cells, places, theirs, stored, m, key, x, k);
    }
  }

  lemma OpenRest(p: Spot, key: string)
    ensures At(p, key).rest != []
  {
  }

  lemma AboveItself(p: Spot)
    ensures Above(p, p)
  {
  }

  /** A set whose walk comes to no mapping that was not copied. */
  lemma {:induction false} SetPlaced(base: Cells, cells: Cells, places: Places, theirs: set<Mapping>, stored: seq<Spot>,
                                     m: Mapping, path: Path, value: Entry, after: Cells)
    returns (more: Places)
    requires Grown(base, cells, places, theirs, stored) && m in places && path != []
    requires SetTo(cells, after, m, path, value) && (value.Sub? ==> value.mapping in theirs)
    requires !Visits(cells, m, path, theirs)
    ensures Grown(base, after, more, theirs, stored + [Place(base, places[m], path)])
    ensures forall x :: x in places ==> x in more && more[x] == places[x]
    decreases |path|
  {
    hide Grown, Place, At;
    var key := path[0];
    if |path| == 1 {
      StorePlaced(base, cells, places, theirs, stored, m, key, value, after);
      PlaceOfOne(base, cells, places, theirs, stored, m, path);
      more := places;
    } else {
      OneStep(base, cells, places, theirs, stored, m, path);
      if key in cells[m] {
        more := SetPlaced(base, cells, places, theirs, stored, cells[m][key].mapping, path[1..], value, after);
      } else {
        var made := after[m][key].mapping;
        var mid, between := Opened(cells, m, key, made), places[made := At(places[m], key)];
        OpenPlaced(base, cells, places, theirs, stored, m, key, made);
        assert mid[made] == map[];
        more := SetPlaced(base, mid, between, theirs, stored, made, path[1..], value, after);
        PlaceBelow(base, places[m], path);
      }
    }
  }

  lemma PlaceOfOne(base: Cells, cells: Cells, places: Places, theirs: set<Mapping>, stored: seq<Spot>, m: Mapping,
                   path: Path)
    requires Grown(base, cells, places, theirs, stored) && m in places && |path| == 1
    ensures Place(base, places[m], path) == At(places[m], path[0])
  {
    assert path == [path[0]];
  }

  lemma PlaceBelow(base: Cells, place: Spot, path: Path)
    requires |path| > 1 && Place(base, place, path) == Spot(place.mapping, place.rest + path)
    ensures Place(base, At(place, path[0]), path[1..]) == Place(base, place, path)
  {
    assert place.rest + [path[0]] + path[1..] == place.rest + path;
  }

  // ---------------------------------------------------------------------------
  // The whole run
  // ---------------------------------------------------------------------------

  /** The places where the first `n` overrides store their values. */
  function Stored(base: Cells, root: Mapping, order: seq<string>, n: nat): seq<Spot>
    requires n <= |order|
  {
    seq(n, j requires 0 <= j < n => Target(base, root, Split(order[j], '.')))
  }

  function OwnPlaces(base: Cells, theirs: set<Mapping>): Places {
    map m | m in base && m !in theirs :: Spot(m, [])
  }

  /** A copy that does not refer to what was not copied. */
  ghost predicate Secluded(base: Cells, theirs: set<Mapping>) {
    && theirs <= base.Keys
    && forall m, k :: m in base && m !in theirs && k in base[m] && base[m][k].Sub? ==>
         base[m][k].mapping in base && base[m][k].mapping !in theirs
  }

  lemma NothingStored(base: Cells, theirs: set<Mapping>)
    requires Secluded(base, theirs)
    ensures Grown(base, base, OwnPlaces(base, theirs), theirs, [])
  {
    var places := OwnPlaces(base, theirs);
    forall m, k | m in places && m in base && k in base[m] ensures Placed(base, base, places, theirs, [], m, k) {
    }
  }

  /** The state before override `n`, if no walk has come to a mapping of the caller so far. */
  lemma {:induction false} PlacesAfter(states: seq<Cells>, root: Mapping, overrides: map<string, Entry>,
                                       order: seq<string>, theirs: set<Mapping>, n: nat)
    returns (places: Places)
    requires Run(states, root, overrides, order) && n <= |order| && NoVisits(states, root, order, theirs, n)
    requires Secluded(states[0], theirs) && root in states[0] && root !in theirs
    requires forall p :: p in order ==> p in overrides && (overrides[p].Sub? ==> overrides[p].mapping in theirs)
    ensures Grown(states[0], states[n], places, theirs, Stored(states[0], root, order, n))
    ensures root in places && places[root] == Spot(root, [])
    decreases n
  {
    hide Grown, Visits, SetTo, Split;
    if n == 0 {
      NothingStored(states[0], theirs);
      places := OwnPlaces(states[0], theirs);
    } else {
      var before := PlacesAfter(states, root, overrides, order, theirs, n - 1);
      var p := order[n - 1];
      assert p in order;
      assert Applied(states[n - 1], states[n], root, p, overrides[p]);
      places := SetPlaced(states[0], states[n - 1], before, theirs, Stored(states[0], root, order, n - 1), root,
                          Split(p, '.'), overrides[p], states[n]);
      assert Stored(states[0], root, order, n)
             == Stored(states[0], root, order, n - 1) + [Target(states[0], root, Split(p, '.'))];
    }
  }

  /** A proper prefix of the path of override `k` leads to where override `j` stores its value. */
  ghost predicate Meets(cells: Cells, root: Mapping, order: seq<string>, j: nat, k: nat) {
    && j < k < |order|
    && exists i :: 0 < i < |Split(order[k], '.')|
                   && Target(cells, root, Split(order[k], '.')[..i]) == Target(cells, root, Split(order[j], '.'))
  }

  /** No override goes through the place of an earlier one. */
  ghost predicate NoneMeet(cells: Cells, root: Mapping, order: seq<string>) {
    forall j, k :: 0 <= j < k < |order| ==> !Meets(cells, root, order, j, k)
  }

  /** Some walk comes to a mapping of the caller exactly when some override goes through the place of an earlier one. */
  lemma VisitsExactly(states: seq<Cells>, root: Mapping, overrides: map<string, Entry>, order: seq<string>,
                      theirs: set<Mapping>)
    requires Run(states, root, overrides, order)
    requires Secluded(states[0], theirs) && root in states[0] && root !in theirs
    requires forall p :: p in order ==> p in overrides && (overrides[p].Sub? ==> overrides[p].mapping in theirs)
    ensures NoVisits(states, root, order, theirs, |order|) <==> NoneMeet(states[0], root, order)
  {
    hide Grown, Visits, SetTo, Split;
    var base := states[0];
    if !NoVisits(states, root, order, theirs, |order|) {
      var k := FirstVisit(states, root, order, theirs, |order|);
      var places := PlacesAfter(states, root, overrides, order, theirs, k);
      var path := Split(order[k], '.');
      var i := VisitsThrough(base, states[k], places, theirs, Stored(base, root, order, k), root, path);
      var j :| 0 <= j < k && Stored(base, root, order, k)[j] == Target(base, root, path[..i]);
      assert Meets(base, root, order, j, k);
    } else {
      forall j, k | 0 <= j < k < |order| ensures !Meets(base, root, order, j, k) {
        if Meets(base, root, order, j, k) {
          var path := Split(order[k], '.');
          var i :| 0 < i < |path| && Target(base, root, path[..i]) == Target(base, root, Split(order[j], '.'));
          var places := PlacesAfter(states, root, overrides, order, theirs, k);
          OnlyTargetWritten(states[k], states[k + 1], root, path, overrides[order[k]]);
          assert Stored(base, root, order, k)[j] == Target(base, root, path[..i]);
          ThroughVisits(base, states[k], places, theirs, Stored(base, root, order, k), root, path[..i], path);
          assert false;
        }
      }
    }
  }

  // ---------------------------------------------------------------------------
  // Told from the document itself
  // ---------------------------------------------------------------------------

  /** A path leads to the same place in the document and in its copy. */
  lemma {:induction false} CopiedTarget(before: Cells, after: Cells, document: Mapping, image: Image, m: Mapping,
                                        path: Path)
    requires Copied(before, after, document, image) && m in image && path != []
    ensures var spot := Target(before, m, path);
            spot.mapping in image && Target(after, image[m], path) == Spot(image[spot.mapping], spot.rest)
    decreases |path|
  {
    if |path| > 1 && path[0] in before[m] && before[m][path[0]].Sub? {
      CopiedTarget(before, after, document, image, before[m][path[0]].mapping, path[1..]);
    }
  }

  lemma CopiedMeets(before: Cells, after: Cells, document: Mapping, image: Image, order: seq<string>, j: nat, k: nat)
    requires Copied(before, after, document, image)
    ensures Meets(after, image[document], order, j, k) <==> Meets(before, document, order, j, k)
  {
    hide Split;
    if j < k < |order| {
      var path, other := Split(order[k], '.'), Split(order[j], '.');
      CopiedTarget(before, after, document, image, document, other);
      forall i | 0 < i < |path|
        ensures Target(after, image[document], path[..i]) == Target(after, image[document], other)
                <==> Target(before, document, path[..i]) == Target(before, document, other)
      {
        CopiedTarget(before, after, document, image, document, path[..i]);
      }
    }
  }

  lemma CopyIsSecluded(before: Cells, after: Cells, document: Mapping, image: Image)
    requires Copied(before, after, document, image)
    ensures Secluded(after, before.Keys) && image[document] in after && image[document] !in before
  {
    forall m, k | m in after && m !in before && k in after[m] && after[m][k].Sub?
      ensures after[m][k].mapping in after && after[m][k].mapping !in before
    {
      var x :| x in image && image[x] == m;
      assert after[m][k] == RenameEntry(before[x][k], image);
    }
  }

  /**
   * Whatever the document and the values share: of the mappings there were before the call, one is written exactly
   * when a proper prefix of the path of some applied override leads, in the document as the caller gave it, to where
   * an earlier override stores its value; otherwise all of them stay as they were.
   */
  lemma CallerIsWrittenExactly(before: Cells, document: Mapping, image: Image, states: seq<Cells>,
                               overrides: map<string, Entry>, order: seq<string>, error: Option<PathError>)
    requires Closed(before) && states != [] && Copied(before, states[0], document, image)
    requires forall p :: p in order ==> p in overrides && Known(before, overrides[p])
    requires Outcome(states, image[document], overrides, order, error)
    ensures var applied := order[..|states| - 1];
            && ((exists k :: 0 <= k < |applied| && Writes(states, image[document], applied, k, before.Keys))
                <==> !NoneMeet(before, document, applied))
            && (NoneMeet(before, document, applied) ==>
                  forall i, x :: 0 <= i < |states| && x in before ==> x in states[i] && states[i][x] == before[x])
  {
    hide Run, Writes, NoVisits, Meets, Secluded, Closed;
    var applied := order[..|states| - 1];
    assert forall p :: p in applied ==> p in order;
    CallerIsWrittenByWalks(before, document, image, states, overrides, order, error);
    CopyIsSecluded(before, states[0], document, image);
    VisitsExactly(states, image[document], overrides, applied, before.Keys);
    forall j, k | 0 <= j < k < |applied|
      ensures Meets(states[0], image[document], applied, j, k) <==> Meets(before, document, applied, j, k)
    {
      CopiedMeets(before, states[0], document, image, applied, j, k);
    }
  }

  // ---------------------------------------------------------------------------
  // Documents that share nothing
  // ---------------------------------------------------------------------------

  /** In a document that shares nothing the place tells the path. */
  lemma {:induction false} PlaceIsPath(cells: Cells, where: Addresses, m: Mapping, path: Path)
    requires Apart(cells, where, {}) && m in where && path != []
    ensures var spot := Target(cells, m, path);
            spot.mapping in where && where[spot.mapping] + spot.rest == where[m] + path
    decreases |path|
  {
    if |path| > 1 && path[0] in cells[m] && cells[m][path[0]].Sub? {
      EntryFits(cells, where, {}, m, path[0]);
      PlaceIsPath(cells, where, cells[m][path[0]].mapping, path[1..]);
      assert path == [path[0]] + path[1..];
    }
  }

  lemma MeetsIsThrough(cells: Cells, where: Addresses, document: Mapping, order: seq<string>, j: nat, k: nat)
    requires Unshared(cells, where, Sub(document))
    ensures Meets(cells, document, order, j, k) <==> Through(order, j, k)
  {
    hide Split;
    if j < k < |order| {
      var path, other := Split(order[k], '.'), Split(order[j], '.');
      PlaceIsPath(cells, where, document, other);
      forall i | 0 < i < |path|
        ensures Target(cells, document, path[..i]) == Target(cells, document, other) <==> path[..i] == other
      {
        PlaceIsPath(cells, where, document, path[..i]);
        assert [] + path[..i] == path[..i] && [] + other == other;
      }
      if Through(order, j, k) {
        assert path[..|other|] == other;
      }
    }
  }

  /** In a document that shares nothing: exactly when an applied override goes through the path of an earlier one. */
  lemma CallerIsWritten(before: Cells, where: Addresses, document: Mapping, image: Image, states: seq<Cells>,
                        overrides: map<string, Entry>, order: seq<string>, error: Option<PathError>)
    requires Closed(before) && Unshared(before, where, Sub(document))
    requires forall p :: p in order ==> p in overrides && Known(before, overrides[p])
    requires states != [] && Copied(before, states[0], document, image)
    requires Outcome(states, image[document], overrides, order, error)
    ensures var applied := order[..|states| - 1];
            && ((exists k :: 0 <= k < |applied| && Writes(states, image[document], applied, k, before.Keys))
                <==> !NoneThrough(applied, |applied|))
            && (NoneThrough(applied, |applied|) ==>
                  forall i, x :: 0 <= i < |states| && x in before ==> x in states[i] && states[i][x] == before[x])
  {
    hide Run, Writes, Meets, Through, Unshared, Closed;
    var applied := order[..|states| - 1];
    CallerIsWrittenExactly(before, document, image, states, overrides, order, error);
    forall j, k | 0 <= j < k < |applied| ensures Meets(before, document, applied, j, k) <==> Through(applied, j, k) {
      MeetsIsThrough(before, where, document, applied, j, k);
    }
  }

  // ---------------------------------------------------------------------------
  // Two names for one mapping
  // ---------------------------------------------------------------------------

  /** `{"x.v": d, "y.v.b": 1}` */
  const ALIASED := ["x.v", "y.v.b"]

  /** Where `x` and `y` are one mapping the second override goes through the place of the first, not through its path. */
  lemma AliasesMeet(cells: Cells, document: Mapping, shared: Mapping)
    requires document in cells && cells[document] == map["x" := Sub(shared), "y" := Sub(shared)]
    requires shared in cells && cells[shared] == map[]
    ensures NoneThrough(ALIASED, 2) && !NoneMeet(cells, document, ALIASED)
  {
    hide Split;
    SplitWithout("v", '.');
    SplitWithout("b", '.');
    assert "x.v" == "x" + ['.'] + "v" && "y.v.b" == "y" + ['.'] + ("v" + ['.'] + "b");
    SplitPrefix("x", "v", '.');
    SplitPrefix("y", "v" + ['.'] + "b", '.');
    SplitPrefix("v", "b", '.');
    var first, second := Split(ALIASED[0], '.'), Split(ALIASED[1], '.');
    assert first == ["x", "v"] && second == ["y", "v", "b"];
    assert second[..2] == ["y", "v"] && ["y", "v"][1..] == ["v"] && ["x", "v"][1..] == ["v"];
    assert Target(cells, document, second[..2]) == Spot(shared, ["v"]) == Target(cells, document, first);
    assert Meets(cells, document, ALIASED, 0, 1);
  }
}
