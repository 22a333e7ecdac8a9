/**
 * The setter as it works in place on nested mapping objects, and the overrides built on it. Mapping objects may be
 * shared: nothing here asks that a mapping is reached along one path only.
 */
module FieldOverrides {
  import opened Prelude
  import opened FieldPaths

  /** A value that is not a mapping. */
  type Plain = v: Value | !v.Dict? witness Null

  /** What a mapping object stores under a key: a plain value, or a reference to another mapping object. */
  datatype Entry = Leaf(value: Plain) | Sub(mapping: Mapping)

  class Mapping {
    var entries: map<string, Entry>

    constructor ()
      ensures entries == map[]
    {
      entries := map[];
    }
  }

  // ---------------------------------------------------------------------------
  // What a group of mapping objects holds
  // ---------------------------------------------------------------------------

  type Cells = map<Mapping, map<string, Entry>>

  ghost function Snapshot(heap: set<Mapping>): (cells: Cells)
    reads heap
    ensures cells.Keys == heap && forall m :: m in heap ==> cells[m] == m.entries
  {
    map m | m in heap :: m.entries
  }

  predicate Known(cells: Cells, e: Entry) {
    e.Sub? ==> e.mapping in cells
  }

  /** No reference leads out of the group. */
  ghost predicate Closed(cells: Cells) {
    forall m, k :: m in cells && k in cells[m] ==> Known(cells, cells[m][k])
  }

  /** The entry stands for the value: read through the references it is that value. */
  ghost predicate Holds(cells: Cells, e: Entry, v: Value)
    decreases v
  {
    match e
    case Leaf(w) => v == w
    case Sub(m) =>
      && v.Dict? && m in cells && cells[m].Keys == v.fields.Keys
      && forall k :: k in v.fields ==> Holds(cells, cells[m][k], v.fields[k])
  }

  // ---------------------------------------------------------------------------
  // One set, whatever is shared
  // ---------------------------------------------------------------------------

  /** The first segment, the last excepted, under which the walk finds something that is not a mapping. */
  function InTheWay(cells: Cells, m: Mapping, path: Path): Option<string>
    decreases |path|
  {
    if |path| <= 1 || m !in cells || path[0] !in cells[m] then None
    else
      match cells[m][path[0]]
      case Leaf(_) => Some(path[0])
      case Sub(next) => InTheWay(cells, next, path[1..])
  }

  function SetError(cells: Cells, root: Mapping, path: string): Option<PathError> {
    var parts := Split(path, '.');
    if "" in parts then Some(EmptySegment(path))
    else
      match InTheWay(cells, root, parts)
      case Some(part) => Some(NotAMapping(path, part))
      case None => None
  }

  /** `made`, an empty mapping, is added under a key of `m`. */
  function Opened(cells: Cells, m: Mapping, key: string, made: Mapping): Cells
    requires m in cells
  {
    cells[made := map[]][m := cells[m][key := Sub(made)]]
  }

  /** Walking the path from `m` leads to `last`; mappings missing on the way are new and empty. */
  ghost predicate Walk(before: Cells, now: Cells, m: Mapping, path: Path, last: Mapping)
    decreases |path|
  {
    if path == [] then now == before && last == m
    else
      && m in before && m in now
      && var key := path[0];
      if key in before[m] then before[m][key].Sub? && Walk(before, now, before[m][key].mapping, path[1..], last)
      else
        && key in now[m] && now[m][key].Sub? && now[m][key].mapping !in before
        && Walk(Opened(before, m, key, now[m][key].mapping), now, now[m][key].mapping, path[1..], last)
  }

  /** Storing the entry under the path that starts at `m` turns `before` into `after`. */
  ghost predicate SetTo(before: Cells, after: Cells, m: Mapping, path: Path, value: Entry)
    requires path != []
    decreases |path|
  {
    && m in before && m in after
    && var key := path[0];
    if |path| == 1 then after == before[m := before[m][key := value]]
    else if key in before[m] then
      before[m][key].Sub? && SetTo(before, after, before[m][key].mapping, path[1..], value)
    else
      && key in after[m] && after[m][key].Sub? && after[m][key].mapping !in before
      && SetTo(Opened(before, m, key, after[m][key].mapping), after, after[m][key].mapping, path[1..], value)
  }

  datatype Spot = Spot(mapping: Mapping, rest: Path)

  /** The one mapping, of those there are, that a set writes, and the segments left from there on. */
  function Target(cells: Cells, m: Mapping, path: Path): (spot: Spot)
    requires path != []
    ensures spot.rest != []
    decreases |path|
  {
    if |path| == 1 || m !in cells || path[0] !in cells[m] || cells[m][path[0]].Leaf? then Spot(m, path)
    else Target(cells, cells[m][path[0]].mapping, path[1..])
  }

  /**
   * Of the mappings there were, a set writes one key of one mapping: with the value if the path ends there, else with
   * a new mapping.
   */
  lemma {:induction false} OnlyTargetWritten(before: Cells, after: Cells, m: Mapping, path: Path, value: Entry)
    requires path != [] && SetTo(before, after, m, path, value)
    ensures InTheWay(before, m, path) == None && before.Keys <= after.Keys
    ensures var spot := Target(before, m, path);
            && spot.mapping in before && spot.rest[0] in after[spot.mapping]
            && after[spot.mapping] == before[spot.mapping][spot.rest[0] := after[spot.mapping][spot.rest[0]]]
            && (|spot.rest| == 1 ==> after[spot.mapping][spot.rest[0]] == value)
            && (|spot.rest| > 1 ==> after[spot.mapping][spot.rest[0]].Sub?
                                    && after[spot.mapping][spot.rest[0]].mapping !in before)
    ensures forall x :: x in before && x != Target(before, m, path).mapping ==> after[x] == before[x]
    decreases |path|
  {
    var key := path[0];
    if |path| == 1 {
      assert after[m] == before[m][key := value];
    } else if key in before[m] {
      OnlyTargetWritten(before, after, before[m][key].mapping, path[1..], value);
    } else {
      var made := after[m][key].mapping;
      var mid := Opened(before, m, key, made);
      OnlyTargetWritten(mid, after, made, path[1..], value);
      assert Target(mid, made, path[1..]).mapping == made by {
        assert mid[made] == map[];
      }
      assert after[m] == before[m][key := Sub(made)];
    }
  }

  /** Every mapping there was is as it was exactly when the set stored what was there already. */
  lemma NothingChangedExactly(before: Cells, after: Cells, m: Mapping, path: Path, value: Entry)
    requires path != [] && SetTo(before, after, m, path, value) && Closed(before)
    ensures var spot := Target(before, m, path);
            && spot.mapping in before
            && ((forall x :: x in before ==> x in after && after[x] == before[x])
                <==> |spot.rest| == 1 && spot.rest[0] in before[spot.mapping]
                     && before[spot.mapping][spot.rest[0]] == value)
  {
    hide SetTo;
    OnlyTargetWritten(before, after, m, path, value);
    var spot := Target(before, m, path);
    var key := spot.rest[0];
    assert key in before[spot.mapping] ==> Known(before, before[spot.mapping][key]);
  }

  /** The last step of a set, once the walk has arrived; what the walk made is still empty at its end. */
  lemma {:induction false} WalkThenSet(before: Cells, now: Cells, after: Cells, m: Mapping, path: Path, last: Mapping,
                                       key: string, value: Entry)
    requires Walk(before, now, m, path, last) && m in before && last in now && before.Keys <= now.Keys
    requires now != before ==> now[last] == map[]
    requires after == now[last := now[last][key := value]]
    ensures SetTo(before, after, m, path + [key], value)
    decreases |path|
  {
    if path != [] {
      var first := path[0];
      assert (path + [key])[1..] == path[1..] + [key];
      if first in before[m] {
        WalkThenSet(before, now, after, before[m][first].mapping, path[1..], last, key, value);
      } else {
        var made := now[m][first].mapping;
        assert now != before;
        assert after[m] == now[m];
        WalkThenSet(Opened(before, m, first, made), now, after, made, path[1..], last, key, value);
      }
    }
  }

  /** One more step of the walk, to a mapping that is there. */
  lemma {:induction false} WalkOn(before: Cells, now: Cells, m: Mapping, path: Path, last: Mapping, key: string)
    requires Walk(before, now, m, path, last) && Closed(before) && m in before
    requires last in now && key in now[last] && now[last][key].Sub? && now == before
    ensures Walk(before, now, m, path + [key], now[last][key].mapping)
    decreases |path|
  {
    if path != [] {
      var first := path[0];
      assert (path + [key])[1..] == path[1..] + [key];
      assert Known(before, before[m][first]);
      WalkOn(before, now, before[m][first].mapping, path[1..], last, key);
    }
  }

  /** One more step of the walk, to a mapping just made; from then on everything on the way is new. */
  lemma {:induction false} WalkMaking(before: Cells, now: Cells, m: Mapping, path: Path, last: Mapping, key: string,
                                      made: Mapping)
    requires Walk(before, now, m, path, last) && m in before && before.Keys <= now.Keys
    requires last in now && key !in now[last] && made !in now
    requires now != before ==> now[last] == map[]
    ensures Walk(before, Opened(now, last, key, made), m, path + [key], made)
    decreases |path|
  {
    var further := Opened(now, last, key, made);
    if path == [] {
      assert [key][0] == key;
      assert further[m][key] == Sub(made);
      assert Walk(further, further, made, [], made);
    } else {
      var first := path[0];
      assert (path + [key])[0] == first && (path + [key])[1..] == path[1..] + [key];
      if first in before[m] {
        WalkMaking(before, now, before[m][first].mapping, path[1..], last, key, made);
      } else {
        assert further[m] == now[m];
        WalkMaking(Opened(before, m, first, now[m][first].mapping), now, now[m][first].mapping, path[1..], last, key,
                   made);
      }
    }
  }

  // ---------------------------------------------------------------------------
  // The setter
  // ---------------------------------------------------------------------------

  /** `current.setdefault(key, {})`. */
  method SetDefault(current: Mapping, key: string, ghost heap: set<Mapping>)
    returns (next: Entry, ghost more: set<Mapping>)
    requires current in heap && Closed(Snapshot(heap))
    modifies current
    ensures heap <= more && fresh(more - heap) && Closed(Snapshot(more)) && Known(Snapshot(more), next)
    ensures key in old(current.entries) ==>
              next == old(current.entries)[key] && more == heap && Snapshot(more) == old(Snapshot(heap))
    ensures key !in old(current.entries) ==>
              && next.Sub? && next.mapping !in heap && next.mapping in more && next.mapping.entries == map[]
              && Snapshot(more) == Opened(old(Snapshot(heap)), current, key, next.mapping)
  {
    more := heap;
    if key in current.entries {
      assert Known(Snapshot(heap), Snapshot(heap)[current][key]);
      return current.entries[key], more;
    }
    ghost var cells := Snapshot(heap);
    var created := new Mapping();
    current.entries := current.entries[key := Sub(created)];
    next := Sub(created);
    more := heap + {created};
    StaysClosed(cells, Opened(cells, current, key, created), current, key, next);
    assert Snapshot(more) == Opened(cells, current, key, created);
  }

  lemma StaysClosed(cells: Cells, now: Cells, m: Mapping, key: string, e: Entry)
    requires Closed(cells) && m in cells && cells.Keys <= now.Keys && Known(now, e)
    requires forall x :: x in now ==>
               now[x] == if x == m then cells[m][key := e] else if x in cells then cells[x] else map[]
    ensures Closed(now)
  {
    forall x, k | x in now && k in now[x] ensures Known(now, now[x][k]) {
      assert x in cells;
      if k in cells[x] {
        assert Known(cells, cells[x][k]);
      }
    }
  }

  /** Where the walk of the setter stands after `i` segments. */
  ghost predicate Underway(before: Cells, now: Cells, root: Mapping, parts: Path, i: nat, current: Mapping) {
    && i < |parts|
    && Walk(before, now, root, parts[..i], current)
    && before.Keys <= now.Keys && current in now
    && (now != before ==> now[current] == map[] && InTheWay(before, root, parts) == None)
    && (now == before ==> InTheWay(before, root, parts) == InTheWay(before, current, parts[i..]))
  }

  lemma Further(before: Cells, now: Cells, root: Mapping, parts: Path, i: nat, current: Mapping, next: Entry, later: Cells)
    requires Underway(before, now, root, parts, i, current) && i + 1 < |parts| && Closed(before) && root in before
    requires parts[i] in now[current] ==> later == now && next == now[current][parts[i]]
    requires parts[i] !in now[current] ==>
               next.Sub? && next.mapping !in now && later == Opened(now, current, parts[i], next.mapping)
    ensures next.Sub? && Known(later, next) ==> Underway(before, later, root, parts, i + 1, next.mapping)
    ensures next.Leaf? ==> now == before && later == before && InTheWay(before, root, parts) == Some(parts[i])
  {
    assert parts[..i + 1] == parts[..i] + [parts[i]];
    assert parts[i..][0] == parts[i] && parts[i..][1..] == parts[i + 1..];
    if parts[i] !in now[current] {
      WalkMaking(before, now, root, parts[..i], current, parts[i], next.mapping);
      assert later[next.mapping] == map[];
      assert next.mapping !in before;
    } else if next.Sub? {
      WalkOn(before, now, root, parts[..i], current, parts[i]);
    }
  }

  lemma Arrived(before: Cells, now: Cells, root: Mapping, parts: Path, current: Mapping, value: Entry, after: Cells)
    requires parts != [] && Underway(before, now, root, parts, |parts| - 1, current) && root in before
    requires after == now[current := now[current][parts[|parts| - 1] := value]]
    ensures SetTo(before, after, root, parts, value) && InTheWay(before, root, parts) == None
  {
    var n := |parts| - 1;
    assert parts == parts[..n] + [parts[n]];
    WalkThenSet(before, now, after, root, parts[..n], current, parts[n], value);
  }

  /**
   * Walk to the last segment, creating mappings on the way, and store the entry itself there, not a copy of it. A
   * refused set leaves every mapping as it was.
   */
  method SetFieldPath(document: Mapping, path: string, value: Entry, ghost heap: set<Mapping>)
    returns (r: Result<(), PathError>, ghost more: set<Mapping>)
    requires document in heap && Closed(Snapshot(heap)) && Known(Snapshot(heap), value)
    modifies heap
    ensures heap <= more && fresh(more - heap) && Closed(Snapshot(more))
    ensures match SetError(old(Snapshot(heap)), document, path)
            case Some(error) => r == Err(error) && more == heap && Snapshot(more) == old(Snapshot(heap))
            case None =>
              && r == Ok(())
              && SetTo(old(Snapshot(heap)), Snapshot(more), document, Split(path, '.'), value)
  {
    hide Snapshot, Closed, Split, SetTo, Walk, Underway, InTheWay;
    more := heap;
    var parts := Split(path, '.');
    if "" in parts {
      return Err(EmptySegment(path)), more;
    }
    ghost var before := Snapshot(heap);
    var current := document;
    Departing(before, document, parts);
    for i := 0 to |parts| - 1
      invariant heap <= more && fresh(more - heap) && current in more && Closed(Snapshot(more))
      invariant Underway(before, Snapshot(more), document, parts, i, current)
    {
      ghost var now, wider := Snapshot(more), more;
      var next;
      next, more := SetDefault(current, parts[i], more);
      Further(before, now, document, parts, i, current, next, Snapshot(more));
      if next.Leaf? {
        return Err(NotAMapping(path, parts[i])), more;
      }
      current := next.mapping;
    }
    ghost var now := Snapshot(more);
    current.entries := current.entries[parts[|parts| - 1] := value];
    StaysClosed(now, Snapshot(more), current, parts[|parts| - 1], value);
    assert Snapshot(more) == now[current := now[current][parts[|parts| - 1] := value]];
    Arrived(before, now, document, parts, current, value, Snapshot(more));
    r := Ok(());
  }

  lemma Departing(cells: Cells, root: Mapping, parts: Path)
    requires parts != [] && root in cells
    ensures Underway(cells, cells, root, parts, 0, root)
  {
    assert parts[..0] == [] && parts[0..] == parts;
  }

  // ---------------------------------------------------------------------------
  // Copying a document
  // ---------------------------------------------------------------------------

  type Image = map<Mapping, Mapping>

  function RenameEntry(e: Entry, image: Image): Entry {
    if e.Sub? && e.mapping in image then Sub(image[e.mapping]) else e
  }

  function Renamed(cell: map<string, Entry>, image: Image): (r: map<string, Entry>)
    ensures r.Keys == cell.Keys && forall k :: k in cell ==> r[k] == RenameEntry(cell[k], image)
  {
    map k | k in cell :: RenameEntry(cell[k], image)
  }

  /** The mappings include the document and every mapping its entries lead to. */
  ghost predicate Covers(cells: Cells, mappings: set<Mapping>, document: Mapping) {
    && document in mappings && mappings <= cells.Keys
    && forall m, k :: m in mappings && k in cells[m] && cells[m][k].Sub? ==> cells[m][k].mapping in mappings
  }

  /** Different mappings have different new images. */
  ghost predicate Fresh(image: Image, cells: Cells) {
    && (forall m :: m in image ==> image[m] !in cells)
    && forall m, n :: m in image && n in image && m != n ==> image[m] != image[n]
  }

  /** A copy that shares what the original shares: each mapping has one new image, which refers to the images. */
  ghost predicate Copied(before: Cells, after: Cells, document: Mapping, image: Image) {
    && Covers(before, image.Keys, document) && Fresh(image, before)
    && after.Keys == before.Keys + image.Values
    && (forall m :: m in before ==> after[m] == before[m])
    && forall m :: m in image ==> after[image[m]] == Renamed(before[m], image)
  }

  method Reached(document: Mapping, ghost heap: set<Mapping>) returns (mappings: set<Mapping>)
    requires document in heap && Closed(Snapshot(heap))
    ensures Covers(Snapshot(heap), mappings, document)
  {
    mappings := {document};
    var pending := {document};
    while pending != {}
      invariant document in mappings && pending <= mappings <= heap
      invariant forall m, k :: m in mappings && m !in pending && k in m.entries && m.entries[k].Sub? ==>
                  m.entries[k].mapping in mappings
      decreases heap - mappings, pending
    {
      var m :| m in pending;
      var next := set k | k in m.entries && m.entries[k].Sub? && m.entries[k].mapping !in mappings
        :: m.entries[k].mapping;
      forall n | n in next ensures n in heap {
        var k :| k in m.entries && m.entries[k].Sub? && m.entries[k].mapping == n;
        assert Known(Snapshot(heap), Snapshot(heap)[m][k]);
      }
      if next != {} {
        var n :| n in next;
        assert n in heap - mappings;
      }
      pending := pending - {m} + next;
      mappings := mappings + next;
    }
  }

  method Images(mappings: set<Mapping>, ghost heap: set<Mapping>) returns (image: Image)
    requires mappings <= heap
    ensures image.Keys == mappings && forall m :: m in image ==> fresh(image[m])
    ensures Fresh(image, Snapshot(heap))
  {
    image := map[];
    var pending := mappings;
    while pending != {}
      invariant pending <= mappings && image.Keys == mappings - pending
      invariant forall m :: m in image ==> fresh(image[m])
      invariant Fresh(image, Snapshot(heap))
    {
      var m :| m in pending;
      var made := new Mapping();
      image := image[m := made];
      pending := pending - {m};
    }
  }

  /** `copy.deepcopy` of a document. */
  method DeepCopy(document: Mapping, ghost heap: set<Mapping>)
    returns (copy: Mapping, ghost image: Image, ghost more: set<Mapping>)
    requires document in heap && Closed(Snapshot(heap))
    ensures more == heap + image.Values && fresh(image.Values)
    ensures Copied(old(Snapshot(heap)), Snapshot(more), document, image) && copy == image[document]
  {
    var mappings := Reached(document, heap);
    var images := Images(mappings, heap);
    ghost var before := Snapshot(heap);
    var pending := mappings;
    while pending != {}
      invariant pending <= mappings
      invariant forall m :: m in heap ==> m.entries == before[m]
      invariant forall m :: m in mappings && m !in pending ==> images[m].entries == Renamed(before[m], images)
    {
      var m :| m in pending;
      images[m].entries := Renamed(m.entries, images);
      pending := pending - {m};
    }
    copy, image, more := images[document], images, heap + images.Values;
  }

  // ---------------------------------------------------------------------------
  // Applying overrides
  // ---------------------------------------------------------------------------

  ghost predicate Applied(before: Cells, after: Cells, root: Mapping, path: string, value: Entry) {
    SetError(before, root, path) == None && SetTo(before, after, root, Split(path, '.'), value)
  }

  /** The states of the mapping objects while the overrides are applied, one more than there are overrides. */
  ghost predicate Run(states: seq<Cells>, root: Mapping, overrides: map<string, Entry>, order: seq<string>) {
    && |states| == |order| + 1
    && forall i :: 0 <= i < |order| ==>
         order[i] in overrides && Applied(states[i], states[i + 1], root, order[i], overrides[order[i]])
  }

  /** The overrides are applied in order, all of them or up to the first that is refused. */
  ghost predicate Outcome(states: seq<Cells>, root: Mapping, overrides: map<string, Entry>, order: seq<string>,
                          error: Option<PathError>) {
    && 0 < |states| <= |order| + 1
    && var n := |states| - 1;
       && Run(states, root, overrides, order[..n])
       && (if n == |order| then error == None else error.Some? && SetError(states[n], root, order[n]) == error)
  }

  lemma RunOneMore(states: seq<Cells>, root: Mapping, overrides: map<string, Entry>, order: seq<string>, n: nat,
                   after: Cells)
    requires n < |order| && |states| == n + 1 && Run(states, root, overrides, order[..n])
    requires order[n] in overrides && SetError(states[n], root, order[n]) == None
    requires SetTo(states[n], after, root, Split(order[n], '.'), overrides[order[n]])
    ensures Run(states + [after], root, overrides, order[..n + 1])
  {
    var longer := states + [after];
    forall i | 0 <= i < n + 1
      ensures order[i] in overrides && Applied(longer[i], longer[i + 1], root, order[i], overrides[order[i]])
    {
      if i < n {
        assert order[..n][i] == order[i];
      }
    }
  }

  lemma RunOfNone(states: seq<Cells>, root: Mapping, overrides: map<string, Entry>, order: seq<string>)
    requires |states| == 1
    ensures Run(states, root, overrides, order[..0])
  {
  }

  /** The loop over the overrides. */
  method ApplyTo(result: Mapping, order: seq<string>, overrides: map<string, Entry>, ghost heap: set<Mapping>)
    returns (r: Result<(), PathError>, ghost states: seq<Cells>, ghost more: set<Mapping>)
    requires result in heap && Closed(Snapshot(heap))
    requires forall p :: p in order ==> p in overrides && Known(Snapshot(heap), overrides[p])
    modifies heap
    ensures heap <= more && fresh(more - heap) && Closed(Snapshot(more))
    ensures states != [] && states[0] == old(Snapshot(heap)) && states[|states| - 1] == Snapshot(more)
    ensures Outcome(states, result, overrides, order, if r.Ok? then None else Some(r.error))
  {
    hide Snapshot, Closed, Applied, Run, SetError;
    more := heap;
    states := [Snapshot(heap)];
    RunOfNone(states, result, overrides, order);
    for n := 0 to |order|
      invariant heap <= more && fresh(more - heap) && Closed(Snapshot(more))
      invariant |states| == n + 1 && states[0] == old(Snapshot(heap)) && states[n] == Snapshot(more)
      invariant Run(states, result, overrides, order[..n])
    {
      var done;
      done, more := SetFieldPath(result, order[n], overrides[order[n]], more);
      if done.Err? {
        return Err(done.error), states, more;
      }
      RunOneMore(states, result, overrides, order, n, Snapshot(more));
      states := states + [Snapshot(more)];
    }
    r := Ok(());
  }

  /**
   * Copy the document, then apply the overrides to the copy. The override values are not copied, so a mapping among
   * them can be written by a later override. Without overrides the document itself is returned.
   */
  method ApplyFieldOverrides(document: Mapping, order: seq<string>, overrides: map<string, Entry>,
                             ghost theirs: set<Mapping>)
    returns (r: Result<Mapping, PathError>, ghost states: seq<Cells>, ghost image: Image, ghost more: set<Mapping>)
    requires document in theirs && Closed(Snapshot(theirs))
    requires forall p :: p in order ==> p in overrides && Known(Snapshot(theirs), overrides[p])
    modifies theirs
    ensures theirs <= more && fresh(more - theirs)
    ensures states != [] && states[|states| - 1] == Snapshot(more)
    ensures order == [] ==> r == Ok(document) && more == theirs && states == [old(Snapshot(theirs))]
    ensures order != [] ==>
              && Copied(old(Snapshot(theirs)), states[0], document, image)
              && Outcome(states, image[document], overrides, order, if r.Ok? then None else Some(r.error))
              && (r.Ok? ==> r.value == image[document])
  {
    if order == [] {
      return Ok(document), [Snapshot(theirs)], map[], theirs;
    }
    var result;
    result, image, more := DeepCopy(document, theirs);
    CopyIsClosed(old(Snapshot(theirs)), Snapshot(more), document, image);
    ghost var copied := more;
    var done;
    done, states, more := ApplyTo(result, order, overrides, more);
    r := if done.Ok? then Ok(result) else Err(done.error);
  }

  lemma CopyIsClosed(before: Cells, after: Cells, document: Mapping, image: Image)
    requires Closed(before) && Copied(before, after, document, image)
    ensures Closed(after)
  {
    forall x, k | x in after && k in after[x] ensures Known(after, after[x][k]) {
      if x in before {
        assert Known(before, before[x][k]);
      } else {
        var m :| m in image && image[m] == x;
        assert Known(before, before[m][k]);
        assert RenameEntry(before[m][k], image) == after[x][k];
      }
    }
  }
}
