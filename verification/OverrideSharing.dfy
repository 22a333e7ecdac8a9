/** Overrides on documents that share nothing: what a set changes, and what the result holds. */
module OverrideSharing {
  import opened Prelude
  import opened FieldPaths
  import opened FieldOverrides

  // ---------------------------------------------------------------------------
  // A document and what lies outside it
  // ---------------------------------------------------------------------------

  /** Where the mappings of a document are: the one path that leads to each. */
  type Addresses = map<Mapping, Path>

  ghost predicate Fits(cells: Cells, where: Addresses, away: set<Mapping>, m: Mapping, k: string)
    requires m in cells && k in cells[m]
  {
    cells[m][k].Sub? ==>
      && (cells[m][k].mapping in where || cells[m][k].mapping in away)
      && (cells[m][k].mapping in where ==> m in where && where[cells[m][k].mapping] == where[m] + [k])
  }

  /**
   * A document and mappings away from it: each mapping of the document is referred to once, by the mapping above it,
   * so nothing away refers to it; what is away may be shared, by the document too.
   */
  ghost predicate Apart(cells: Cells, where: Addresses, away: set<Mapping>) {
    && where.Keys !! away && where.Keys <= cells.Keys && away <= cells.Keys
    && forall m, k {:trigger Fits(cells, where, away, m, k)} ::
         m in cells && (m in where || m in away) && k in cells[m] ==> Fits(cells, where, away, m, k)
  }

  /** The walk to the last segment leaves the document. */
  ghost predicate Enters(cells: Cells, where: Addresses, m: Mapping, path: Path)
    decreases |path|
  {
    && |path| > 1 && m in cells && path[0] in cells[m] && cells[m][path[0]].Sub?
    && (cells[m][path[0]].mapping !in where || Enters(cells, where, cells[m][path[0]].mapping, path[1..]))
  }

  /** Along the path, or at its end, the document has something that is not a mapping of its own. */
  ghost predicate Leaves(cells: Cells, where: Addresses, m: Mapping, path: Path)
    decreases |path|
  {
    && path != [] && m in cells && path[0] in cells[m]
    && (cells[m][path[0]].Leaf? || cells[m][path[0]].mapping !in where
        || Leaves(cells, where, cells[m][path[0]].mapping, path[1..]))
  }

  /** Outside the entry of `key` in `m`, and what the document has below it, nothing is written. */
  ghost predicate Kept(cells: Cells, after: Cells, where: Addresses, m: Mapping, key: string)
    requires m in where
  {
    && m in cells && m in after
    && (forall k :: k != key ==> (k in after[m] <==> k in cells[m]) && (k in cells[m] ==> after[m][k] == cells[m][k]))
    && forall x :: x in cells && x != m && (x in where ==> !(where[m] + [key] <= where[x])) ==>
         x in after && after[x] == cells[x]
  }

  ghost predicate Extends(where: Addresses, wider: Addresses, cells: Cells) {
    && (forall x :: x in where ==> x in wider && wider[x] == where[x])
    && forall x :: x in wider && x !in where ==> x !in cells
  }

  ghost predicate LeadsOut(cells: Cells, where: Addresses, x: Mapping, k: string) {
    x in where && x in cells && k in cells[x] && cells[x][k].Sub? && cells[x][k].mapping !in where
  }

  /** A reference that leads out of the document is an old one, or is the value stored, at its address. */
  ghost predicate NewOnlyAt(cells: Cells, after: Cells, where: Addresses, wider: Addresses, at: Path, value: Entry) {
    forall x, k :: x in wider && LeadsOut(after, wider, x, k) ==>
      || (LeadsOut(cells, where, x, k) && cells[x][k] == after[x][k])
      || (wider[x] + [k] == at && after[x][k] == value)
  }

  /** A set that stays in the document: it remains a document, and only the path set is affected. */
  lemma {:induction false} SetInside(cells: Cells, where: Addresses, away: set<Mapping>, m: Mapping, path: Path,
                                     value: Entry, after: Cells)
    returns (wider: Addresses)
    requires Apart(cells, where, away) && m in where && path != [] && SetTo(cells, after, m, path, value)
    requires !Enters(cells, where, m, path) && (value.Sub? ==> value.mapping in away)
    ensures Extends(where, wider, cells) && Apart(after, wider, away)
    ensures Kept(cells, after, where, m, path[0]) && NewOnlyAt(cells, after, where, wider, where[m] + path, value)
    ensures Leaves(after, wider, m, path)
    decreases |path|
  {
    hide Apart, Kept, NewOnlyAt, Extends;
    var key := path[0];
    if |path| == 1 {
      wider := where;
      StoreHere(cells, where, away, m, key, value, after);
      assert where[m] + path == where[m] + [key];
    } else if key in cells[m] {
      var next := cells[m][key].mapping;
      EntryFits(cells, where, away, m, key);
      wider := SetInside(cells, where, away, next, path[1..], value, after);
      assert where[m] + path == where[next] + path[1..];
      KeptAbove(cells, after, where, m, key, next, path[1]);
      assert after[m][key] == cells[m][key];
      StillIn(where, wider, cells, next);
    } else {
      var made := after[m][key].mapping;
      var mid := Opened(cells, m, key, made);
      var between := where[made := where[m] + [key]];
      OpenedApart(cells, where, away, m, key, made);
      assert mid[made] == map[];
      wider := SetInside(mid, between, away, made, path[1..], value, after);
      assert where[m] + path == between[made] + path[1..];
      KeptThroughMade(cells, after, where, away, m, key, made, path[1]);
      ExtendsTwice(where, between, wider, cells, mid, made);
      StillIn(between, wider, mid, made);
      NewThroughMade(cells, after, where, between, wider, m, key, made, where[m] + path, value);
    }
  }

  lemma StillIn(where: Addresses, wider: Addresses, cells: Cells, m: Mapping)
    requires Extends(where, wider, cells) && m in where
    ensures m in wider
  {
  }

  lemma EntryFits(cells: Cells, where: Addresses, away: set<Mapping>, m: Mapping, key: string)
    requires Apart(cells, where, away) && (m in where || m in away) && m in cells && key in cells[m]
    ensures cells[m][key].Sub? ==>
              && cells[m][key].mapping in cells
              && (cells[m][key].mapping in where || cells[m][key].mapping in away)
              && (m in away ==> cells[m][key].mapping !in where)
              && (cells[m][key].mapping in where ==> where[cells[m][key].mapping] == where[m] + [key])
  {
    assert Fits(cells, where, away, m, key);
  }

  lemma StoreHere(cells: Cells, where: Addresses, away: set<Mapping>, m: Mapping, key: string, value: Entry, after: Cells)
    requires Apart(cells, where, away) && m in where && m in cells && (value.Sub? ==> value.mapping in away)
    requires after == cells[m := cells[m][key := value]]
    ensures Apart(after, where, away) && Extends(where, where, cells) && Kept(cells, after, where, m, key)
    ensures NewOnlyAt(cells, after, where, where, where[m] + [key], value)
    ensures key in after[m] && (after[m][key].Leaf? || after[m][key].mapping !in where)
  {
    forall x, k | (x in where || x in away) && k in after[x] ensures Fits(after, where, away, x, k) {
      if x != m || k != key {
        assert Fits(cells, where, away, x, k);
      }
    }
  }

  lemma Shorter(p: Path, key: string, q: Path)
    ensures p + [key] <= q ==> p <= q
  {
  }

  lemma KeptAbove(cells: Cells, after: Cells, where: Addresses, m: Mapping, key: string, next: Mapping, below: string)
    requires m in where && next in where && where[next] == where[m] + [key] && m in cells
    requires Kept(cells, after, where, next, below)
    ensures Kept(cells, after, where, m, key) && after[m] == cells[m]
  {
    forall x | x in cells && (x in where ==> !(where[m] + [key] <= where[x])) ensures x in after && after[x] == cells[x] {
      if x in where {
        Shorter(where[next], below, where[x]);
      }
    }
  }

  lemma OpenedApart(cells: Cells, where: Addresses, away: set<Mapping>, m: Mapping, key: string, made: Mapping)
    requires Apart(cells, where, away) && m in where && m in cells && key !in cells[m] && made !in cells
    ensures made !in where && Apart(Opened(cells, m, key, made), where[made := where[m] + [key]], away)
  {
    var mid, between := Opened(cells, m, key, made), where[made := where[m] + [key]];
    forall x, k | x in mid && (x in between || x in away) && k in mid[x] ensures Fits(mid, between, away, x, k) {
      if x != made && (x != m || k != key) {
        assert Fits(cells, where, away, x, k);
      }
    }
  }

  lemma KeptThroughMade(cells: Cells, after: Cells, where: Addresses, away: set<Mapping>, m: Mapping, key: string,
                        made: Mapping, below: string)
    requires Apart(cells, where, away) && m in where && m in cells && key !in cells[m] && made !in cells
    requires Kept(Opened(cells, m, key, made), after, where[made := where[m] + [key]], made, below)
    ensures Kept(cells, after, where, m, key) && key in after[m] && after[m][key] == Sub(made)
  {
    var mid, between := Opened(cells, m, key, made), where[made := where[m] + [key]];
    forall x | x in cells && (x in where ==> !(where[m] + [key] <= where[x])) ensures x in after && after[x] == mid[x] {
      if x in where {
        Shorter(between[made], below, where[x]);
      }
    }
    assert after[m] == mid[m];
  }

  lemma ExtendsTwice(where: Addresses, between: Addresses, wider: Addresses, cells: Cells, mid: Cells, made: Mapping)
    requires Extends(between, wider, mid) && made !in cells && made !in where && cells.Keys <= mid.Keys
    requires between.Keys == where.Keys + {made} && forall x :: x in where ==> between[x] == where[x]
    ensures Extends(where, wider, cells)
  {
  }

  lemma NewThroughMade(cells: Cells, after: Cells, where: Addresses, between: Addresses, wider: Addresses, m: Mapping,
                       key: string, made: Mapping, at: Path, value: Entry)
    requires m in cells && m in where && made !in cells && made !in where && between == where[made := where[m] + [key]]
    requires NewOnlyAt(Opened(cells, m, key, made), after, between, wider, at, value) && made in wider
    ensures NewOnlyAt(cells, after, where, wider, at, value)
  {
  }

  /** A walk that leaves the document does so at a reference found on the path, above its end. */
  lemma {:induction false} EntersAt(cells: Cells, where: Addresses, away: set<Mapping>, m: Mapping, path: Path)
    returns (x: Mapping, k: string, n: nat)
    requires Apart(cells, where, away) && m in where && Enters(cells, where, m, path)
    ensures LeadsOut(cells, where, x, k)
    ensures 0 < n < |path| && where[x] + [k] == where[m] + path[..n]
    decreases |path|
  {
    var next := cells[m][path[0]].mapping;
    if next !in where {
      x, k, n := m, path[0], 1;
    } else {
      EntryFits(cells, where, away, m, path[0]);
      x, k, n := EntersAt(cells, where, away, next, path[1..]);
      n := n + 1;
      assert path[..n] == [path[0]] + path[1..][..n - 1];
    }
  }

  /** If the document has something else at a proper prefix, a set that succeeds leaves the document. */
  lemma {:induction false} LeavesThenEnters(cells: Cells, where: Addresses, m: Mapping, prefix: Path, path: Path)
    requires Leaves(cells, where, m, prefix) && prefix < path && InTheWay(cells, m, path) == None
    ensures Enters(cells, where, m, path)
    decreases |prefix|
  {
    if cells[m][path[0]].Sub? && cells[m][path[0]].mapping in where {
      LeavesThenEnters(cells, where, cells[m][path[0]].mapping, prefix[1..], path[1..]);
    }
  }

  /** What the document did not have as a mapping of its own, it does not have afterwards. */
  lemma {:induction false} StillLeaves(cells: Cells, where: Addresses, away: set<Mapping>, m: Mapping, path: Path,
                                       value: Entry, after: Cells, wider: Addresses, other: Path)
    requires Apart(cells, where, away) && m in where && path != [] && SetTo(cells, after, m, path, value)
    requires !Enters(cells, where, m, path) && (value.Sub? ==> value.mapping in away)
    requires Extends(where, wider, cells) && Leaves(cells, where, m, other)
    ensures Leaves(after, wider, m, other)
    decreases |path|
  {
    hide Apart;
    var key := path[0];
    EntryFits(cells, where, away, m, other[0]);
    if other[0] != key {
      var _ := SetInside(cells, where, away, m, path, value, after);
      if cells[m][other[0]].Sub? && cells[m][other[0]].mapping in where {
        Siblings(where[m], other[0], key);
        LeavesElsewhere(cells, after, where, wider, away, m, key, cells[m][other[0]].mapping, other[1..]);
      }
    } else if |path| > 1 {
      var next := cells[m][key].mapping;
      var _ := SetInside(cells, where, away, next, path[1..], value, after);
      KeptAbove(cells, after, where, m, key, next, path[1]);
      StillLeaves(cells, where, away, next, path[1..], value, after, wider, other[1..]);
    } else {
      assert after[m][key] == value;
      AwayStays(cells, where, away, wider, value);
    }
  }

  lemma AwayStays(cells: Cells, where: Addresses, away: set<Mapping>, wider: Addresses, e: Entry)
    requires Apart(cells, where, away) && Extends(where, wider, cells) && (e.Sub? ==> e.mapping in away)
    ensures e.Sub? ==> e.mapping !in wider
  {
  }

  /** On a branch that is not written the document is as it was. */
  lemma {:induction false} LeavesElsewhere(cells: Cells, after: Cells, where: Addresses, wider: Addresses,
                                           away: set<Mapping>, m: Mapping, key: string, next: Mapping, other: Path)
    requires Apart(cells, where, away) && m in where && Kept(cells, after, where, m, key)
    requires next in where && !Related(where[next], where[m] + [key])
    requires Extends(where, wider, cells) && Leaves(cells, where, next, other)
    ensures Leaves(after, wider, next, other)
    decreases |other|
  {
    EntryFits(cells, where, away, next, other[0]);
    assert after[next] == cells[next];
    var e := cells[next][other[0]];
    if e.Sub? && e.mapping in where {
      UnrelatedBelow(where[next], other[0], where[m] + [key]);
      LeavesElsewhere(cells, after, where, wider, away, m, key, e.mapping, other[1..]);
    } else {
      AwayStays(cells, where, away, wider, e);
    }
  }

  lemma Siblings(p: Path, j: string, k: string)
    requires j != k
    ensures !Related(p + [j], p + [k])
  {
    assert (p + [j])[|p|] == j && (p + [k])[|p|] == k;
  }

  lemma UnrelatedBelow(p: Path, key: string, q: Path)
    requires !Related(p, q)
    ensures !Related(p + [key], q)
  {
    assert q <= p + [key] ==> q <= p || q == p + [key];
  }

  // ---------------------------------------------------------------------------
  // When an override goes through the path of an earlier one
  // ---------------------------------------------------------------------------

  /** The path of override `k` goes through the one of the earlier override `j`. */
  predicate Through(order: seq<string>, j: nat, k: nat) {
    j < k < |order| && Split(order[j], '.') < Split(order[k], '.')
  }

  ghost predicate NoneThrough(order: seq<string>, n: nat) {
    forall j, k :: 0 <= j < k < n ==> !Through(order, j, k)
  }

  /** The document after `n` overrides: at their paths it has leaves or references that lead out, and only there. */
  ghost predicate Tracked(cells: Cells, where: Addresses, away: set<Mapping>, root: Mapping, order: seq<string>, n: nat) {
    && n <= |order| && Apart(cells, where, away) && root in where && where[root] == []
    && (forall j :: 0 <= j < n ==> Leaves(cells, where, root, Split(order[j], '.')))
    && forall x, k :: x in where && LeadsOut(cells, where, x, k) ==> StoredAt(order, n, where[x] + [k])
  }

  ghost predicate StoredAt(order: seq<string>, n: nat, at: Path)
    requires n <= |order|
  {
    exists j :: 0 <= j < n && Split(order[j], '.') == at
  }

  /** No reference leads out of the document. */
  ghost predicate Whole(cells: Cells, where: Addresses) {
    forall x, k :: x in where ==> !LeadsOut(cells, where, x, k)
  }

  /** The next override leaves the document exactly when its path goes through that of an earlier one. */
  lemma EntersExactly(cells: Cells, where: Addresses, away: set<Mapping>, root: Mapping, order: seq<string>, n: nat)
    requires Tracked(cells, where, away, root, order, n) && n < |order|
    requires InTheWay(cells, root, Split(order[n], '.')) == None
    ensures Enters(cells, where, root, Split(order[n], '.')) <==> exists j :: 0 <= j < n && Through(order, j, n)
  {
    hide Split, Apart;
    var path := Split(order[n], '.');
    if Enters(cells, where, root, path) {
      var x, k, i := EntersAt(cells, where, away, root, path);
      assert [] + path[..i] == path[..i];
      var j :| 0 <= j < n && Split(order[j], '.') == where[x] + [k];
      assert Through(order, j, n);
    }
    if j :| 0 <= j < n && Through(order, j, n) {
      LeavesThenEnters(cells, where, root, Split(order[j], '.'), path);
    }
  }

  lemma StepInside(cells: Cells, where: Addresses, away: set<Mapping>, root: Mapping, order: seq<string>, n: nat,
                   value: Entry, after: Cells)
    returns (wider: Addresses)
    requires Tracked(cells, where, away, root, order, n) && n < |order| && (value.Sub? ==> value.mapping in away)
    requires SetTo(cells, after, root, Split(order[n], '.'), value)
    requires !Enters(cells, where, root, Split(order[n], '.'))
    ensures Tracked(after, wider, away, root, order, n + 1)
    ensures forall x :: x in away ==> x in cells && x in after && after[x] == cells[x]
  {
    hide Split, Apart, SetTo, Leaves;
    var path := Split(order[n], '.');
    wider := SetInside(cells, where, away, root, path, value, after);
    assert [] + path == path;
    forall j | 0 <= j < n + 1 ensures Leaves(after, wider, root, Split(order[j], '.')) {
      if j < n {
        StillLeaves(cells, where, away, root, path, value, after, wider, Split(order[j], '.'));
      }
    }
    forall x, k | x in wider && LeadsOut(after, wider, x, k) ensures StoredAt(order, n + 1, wider[x] + [k]) {
      if LeadsOut(cells, where, x, k) && cells[x][k] == after[x][k] {
        assert StoredAt(order, n, where[x] + [k]);
      } else {
        assert Split(order[n], '.') == wider[x] + [k];
      }
    }
    AwayKept(cells, after, where, away, root, path[0]);
  }

  lemma AwayKept(cells: Cells, after: Cells, where: Addresses, away: set<Mapping>, m: Mapping, key: string)
    requires Apart(cells, where, away) && m in where && Kept(cells, after, where, m, key)
    ensures forall x :: x in away ==> x in cells && x in after && after[x] == cells[x]
  {
  }

  /** What holds after the first `n` overrides, if none of them goes through the path of another. */
  lemma {:induction false} AfterSome(states: seq<Cells>, root: Mapping, overrides: map<string, Entry>,
                                     order: seq<string>, where: Addresses, away: set<Mapping>, n: nat)
    returns (wider: Addresses)
    requires Run(states, root, overrides, order) && n <= |order| && NoneThrough(order, n)
    requires Tracked(states[0], where, away, root, order, 0)
    requires forall p :: p in order ==> p in overrides && (overrides[p].Sub? ==> overrides[p].mapping in away)
    ensures Tracked(states[n], wider, away, root, order, n)
    ensures forall x :: x in away ==> x in states[0] && x in states[n] && states[n][x] == states[0][x]
    decreases n
  {
    hide Tracked, SetTo, Split, Enters;
    if n == 0 {
      wider := where;
      AwayThere(states[0], where, away, root, order);
    } else {
      var w := AfterSome(states, root, overrides, order, where, away, n - 1);
      var p := order[n - 1];
      assert p in order;
      OnlyTargetWritten(states[n - 1], states[n], root, Split(p, '.'), overrides[p]);
      EntersExactly(states[n - 1], w, away, root, order, n - 1);
      wider := StepInside(states[n - 1], w, away, root, order, n - 1, overrides[p], states[n]);
    }
  }

  lemma AwayThere(cells: Cells, where: Addresses, away: set<Mapping>, root: Mapping, order: seq<string>)
    requires Tracked(cells, where, away, root, order, 0)
    ensures away <= cells.Keys
  {
  }

  // ---------------------------------------------------------------------------
  // What the result holds
  // ---------------------------------------------------------------------------

  /** On branches that are not written, and away from the document, entries hold what they held. */
  lemma {:induction false} HoldsElsewhere(cells: Cells, after: Cells, where: Addresses, away: set<Mapping>, m: Mapping,
                                          key: string, e: Entry, v: Value)
    requires Apart(cells, where, away) && m in where && Kept(cells, after, where, m, key) && Holds(cells, e, v)
    requires e.Sub? ==>
               e.mapping in away || (e.mapping in where && !Related(where[e.mapping], where[m] + [key]))
    ensures Holds(after, e, v)
    decreases v
  {
    hide Apart;
    if e.Sub? {
      assert after[e.mapping] == cells[e.mapping] by {
        AwayKept(cells, after, where, away, m, key);
      }
      forall k | k in v.fields ensures Holds(after, cells[e.mapping][k], v.fields[k]) {
        EntryFits(cells, where, away, e.mapping, k);
        if e.mapping !in away {
          UnrelatedBelow(where[e.mapping], k, where[m] + [key]);
        }
        HoldsElsewhere(cells, after, where, away, m, key, cells[e.mapping][k], v.fields[k]);
      }
    }
  }

  /** What is in the way among the mapping objects is what is in the way in the document they hold. */
  lemma {:induction false} BlockedSame(cells: Cells, m: Mapping, doc: Document, path: Path, v: Value)
    requires path != [] && Holds(cells, Sub(m), Dict(doc))
    ensures InTheWay(cells, m, path) ==
              match Put(doc, path, v) { case Ok(_) => None case Err(part) => Some(part) }
    decreases |path|
  {
    if |path| > 1 {
      if path[0] in doc {
        assert Holds(cells, cells[m][path[0]], doc[path[0]]);
        if doc[path[0]].Dict? {
          BlockedSame(cells, cells[m][path[0]].mapping, doc[path[0]].fields, path[1..], v);
        }
      } else {
        PutIntoEmpty(path[1..], v);
      }
    }
  }

  /** Below an empty mapping every set succeeds. */
  lemma {:induction false} PutIntoEmpty(path: Path, v: Value)
    requires path != []
    ensures Put(map[], path, v).Ok?
    decreases |path|
  {
    if |path| > 1 {
      PutIntoEmpty(path[1..], v);
    }
  }

  /** A set that stays in a document that shares nothing is the `Put` on what the document holds. */
  lemma {:induction false} SetIsPut(cells: Cells, where: Addresses, away: set<Mapping>, m: Mapping, doc: Document,
                                    path: Path, value: Entry, v: Value, after: Cells)
    requires Apart(cells, where, away) && m in where && path != [] && SetTo(cells, after, m, path, value)
    requires !Enters(cells, where, m, path) && (value.Sub? ==> value.mapping in away)
    requires Holds(cells, Sub(m), Dict(doc)) && Holds(cells, value, v)
    ensures Put(doc, path, v).Ok? && Holds(after, Sub(m), Dict(Put(doc, path, v).value))
    decreases |path|
  {
    hide Apart, Kept;
    var key := path[0];
    var _ := SetInside(cells, where, away, m, path, value, after);
    if |path| == 1 {
      HoldsElsewhere(cells, after, where, away, m, key, value, v);
      OneEntryPut(cells, after, where, away, m, key, doc, v);
    } else if key in cells[m] {
      EntryFits(cells, where, away, m, key);
      assert Holds(cells, cells[m][key], doc[key]);
      var next, below := cells[m][key].mapping, doc[key].fields;
      var _ := SetInside(cells, where, away, next, path[1..], value, after);
      KeptAbove(cells, after, where, m, key, next, path[1]);
      SetIsPut(cells, where, away, next, below, path[1..], value, v, after);
      OneEntryPut(cells, after, where, away, m, key, doc, Dict(Put(below, path[1..], v).value));
    } else {
      var made := after[m][key].mapping;
      var mid, between := Opened(cells, m, key, made), where[made := where[m] + [key]];
      OpenedApart(cells, where, away, m, key, made);
      assert mid[made] == map[];
      ValueAmid(cells, where, away, m, key, made, value, v);
      SetIsPut(mid, between, away, made, map[], path[1..], value, v, after);
      OneEntryPut(cells, after, where, away, m, key, doc, Dict(Put(map[], path[1..], v).value));
    }
  }

  lemma ValueAmid(cells: Cells, where: Addresses, away: set<Mapping>, m: Mapping, key: string, made: Mapping,
                  value: Entry, v: Value)
    requires Apart(cells, where, away) && m in where && m in cells && key !in cells[m] && made !in cells
    requires Holds(cells, value, v) && (value.Sub? ==> value.mapping in away)
    ensures Holds(Opened(cells, m, key, made), value, v)
  {
    HoldsElsewhere(cells, Opened(cells, m, key, made), where, away, m, key, value, v);
  }

  /** One entry of a mapping holds something new, the others what they held. */
  lemma OneEntryPut(cells: Cells, after: Cells, where: Addresses, away: set<Mapping>, m: Mapping, key: string,
                    doc: Document, v: Value)
    requires Apart(cells, where, away) && m in where && Kept(cells, after, where, m, key)
    requires Holds(cells, Sub(m), Dict(doc)) && key in after[m] && Holds(after, after[m][key], v)
    ensures Holds(after, Sub(m), Dict(doc[key := v]))
  {
    forall j | j in doc && j != key ensures Holds(after, after[m][j], doc[j]) {
      assert Holds(cells, cells[m][j], doc[j]);
      EntryFits(cells, where, away, m, j);
      Siblings(where[m], j, key);
      HoldsElsewhere(cells, after, where, away, m, key, cells[m][j], doc[j]);
    }
  }

  /** Entries away from the document hold the same while those mappings are not written. */
  lemma {:induction false} HoldsAway(cells: Cells, after: Cells, where: Addresses, away: set<Mapping>, e: Entry, v: Value)
    requires Apart(cells, where, away) && Holds(cells, e, v) && (e.Sub? ==> e.mapping in away)
    requires forall x :: x in away ==> x in cells && x in after && after[x] == cells[x]
    ensures Holds(after, e, v)
    decreases v
  {
    if e.Sub? {
      forall k | k in v.fields ensures Holds(after, cells[e.mapping][k], v.fields[k]) {
        EntryFits(cells, where, away, e.mapping, k);
        HoldsAway(cells, after, where, away, cells[e.mapping][k], v.fields[k]);
      }
    }
  }

  ghost predicate Stand(cells: Cells, order: seq<string>, overrides: map<string, Entry>, values: map<string, Value>) {
    forall p :: p in order ==> p in overrides && p in values && Holds(cells, overrides[p], values[p])
  }

  lemma OneMore(doc: Document, values: map<string, Value>, order: seq<string>, n: nat, cells: Cells, root: Mapping,
                before: Document)
    requires 0 < n <= |order| && forall p :: p in order ==> p in values
    requires ApplyAll(doc, values, order[..n - 1]) == Ok(before) && Holds(cells, Sub(root), Dict(before))
    requires SetError(cells, root, order[n - 1]) == None
    ensures Put(before, Split(order[n - 1], '.'), values[order[n - 1]]).Ok?
    ensures ApplyAll(doc, values, order[..n])
            == Ok(Put(before, Split(order[n - 1], '.'), values[order[n - 1]]).value)
  {
    hide Holds;
    BlockedSame(cells, root, before, Split(order[n - 1], '.'), values[order[n - 1]]);
    assert order[..n][..n - 1] == order[..n - 1];
  }

  /** The state after `n` overrides holds what applying them to the values gives. */
  ghost predicate HoldsApplied(cells: Cells, root: Mapping, doc: Document, values: map<string, Value>,
                               order: seq<string>, n: nat)
    requires n <= |order| && forall p :: p in order ==> p in values
  {
    var r := ApplyAll(doc, values, order[..n]);
    r.Ok? && Holds(cells, Sub(root), Dict(r.value))
  }

  /** If no override goes through another, the result is that of applying the values, whatever the values share. */
  lemma {:induction false} UnrelatedAsValues(states: seq<Cells>, root: Mapping, overrides: map<string, Entry>,
                                             order: seq<string>, where: Addresses, away: set<Mapping>, doc: Document,
                                             values: map<string, Value>, n: nat)
    requires Run(states, root, overrides, order) && n <= |order| && NoneThrough(order, n)
    requires Tracked(states[0], where, away, root, order, 0) && Holds(states[0], Sub(root), Dict(doc))
    requires forall p :: p in order ==> p in overrides && (overrides[p].Sub? ==> overrides[p].mapping in away)
    requires Stand(states[0], order, overrides, values)
    ensures HoldsApplied(states[n], root, doc, values, order, n)
    decreases n
  {
    hide Tracked, SetTo, Split, Enters, Holds;
    if n == 0 {
      assert order[..0] == [];
    } else {
      UnrelatedAsValues(states, root, overrides, order, where, away, doc, values, n - 1);
      var w := AfterSome(states, root, overrides, order, where, away, n - 1);
      var p, here := order[n - 1], ApplyAll(doc, values, order[..n - 1]).value;
      assert p in order;
      assert Holds(states[0], overrides[p], values[p]);
      ApartThere(states[0], where, away, root, order, 0);
      HoldsAway(states[0], states[n - 1], where, away, overrides[p], values[p]);
      OnlyTargetWritten(states[n - 1], states[n], root, Split(p, '.'), overrides[p]);
      EntersExactly(states[n - 1], w, away, root, order, n - 1);
      ApartThere(states[n - 1], w, away, root, order, n - 1);
      SetIsPut(states[n - 1], w, away, root, here, Split(p, '.'), overrides[p], values[p], states[n]);
      OneMore(doc, values, order, n, states[n - 1], root, here);
    }
  }

  lemma ApartThere(cells: Cells, where: Addresses, away: set<Mapping>, root: Mapping, order: seq<string>, n: nat)
    requires Tracked(cells, where, away, root, order, n)
    ensures Apart(cells, where, away) && root in where && where[root] == []
  {
  }

  // ---------------------------------------------------------------------------
  // Override values that share nothing
  // ---------------------------------------------------------------------------

  /** The mappings of an entry, each reached along one path, and nothing else. */
  ghost predicate Unshared(cells: Cells, offsets: Addresses, e: Entry) {
    Apart(cells, offsets, {}) && (e.Sub? ==> e.mapping in offsets && offsets[e.mapping] == [])
  }

  /** Each override value has mappings of its own. */
  ghost predicate Separate(cells: Cells, offsets: map<string, Addresses>, overrides: map<string, Entry>,
                           order: seq<string>) {
    && (forall p :: p in order ==> p in offsets && p in overrides && Unshared(cells, offsets[p], overrides[p]))
    && forall p, q :: p in order && q in order && p != q ==> offsets[p].Keys !! offsets[q].Keys
  }

  /** The mappings of the override values still to be stored. */
  ghost function Territory(offsets: map<string, Addresses>, rest: seq<string>): set<Mapping> {
    set p, x | p in rest && p in offsets && x in offsets[p] :: x
  }

  function Shift(offsets: Addresses, path: Path): (r: Addresses)
    ensures r.Keys == offsets.Keys && forall m :: m in offsets ==> r[m] == path + offsets[m]
  {
    map m | m in offsets :: path + offsets[m]
  }

  lemma TerritoryIsClosed(cells: Cells, offsets: map<string, Addresses>, overrides: map<string, Entry>,
                          order: seq<string>, rest: seq<string>)
    requires Separate(cells, offsets, overrides, order) && forall p :: p in rest ==> p in order
    ensures Apart(cells, map[], Territory(offsets, rest))
  {
    forall x | x in Territory(offsets, rest) ensures x in cells {
      var p :| p in rest && p in offsets && x in offsets[p];
      assert Unshared(cells, offsets[p], overrides[p]);
    }
    forall x, k | x in cells && x in Territory(offsets, rest) && k in cells[x]
      ensures Fits(cells, map[], Territory(offsets, rest), x, k)
    {
      var p :| p in rest && p in offsets && x in offsets[p];
      assert Unshared(cells, offsets[p], overrides[p]);
      assert Fits(cells, offsets[p], {}, x, k);
    }
  }

  lemma ApartSame(cells: Cells, after: Cells, where: Addresses, away: set<Mapping>)
    requires Apart(cells, where, away)
    requires forall x :: x in where || x in away ==> x in cells && x in after && after[x] == cells[x]
    ensures Apart(after, where, away)
  {
    forall x, k | (x in where || x in away) && k in after[x] ensures Fits(after, where, away, x, k) {
      assert Fits(cells, where, away, x, k);
    }
  }

  lemma TogetherApart(cells: Cells, where: Addresses, away: set<Mapping>)
    requires Apart(cells, where, {}) && Apart(cells, map[], away) && where.Keys !! away
    ensures Apart(cells, where, away) && Whole(cells, where)
  {
    forall x, k | x in cells && (x in where || x in away) && k in cells[x] ensures Fits(cells, where, away, x, k) {
      if x in where {
        assert Fits(cells, where, {}, x, k);
      } else {
        assert Fits(cells, map[], away, x, k);
      }
    }
    forall x, k | x in where ensures !LeadsOut(cells, where, x, k) {
      if x in cells && k in cells[x] {
        assert Fits(cells, where, {}, x, k);
      }
    }
  }

  lemma WholeStays(cells: Cells, where: Addresses, away: set<Mapping>, m: Mapping, path: Path)
    requires Apart(cells, where, away) && Whole(cells, where) && m in where
    ensures !Enters(cells, where, m, path)
  {
    if Enters(cells, where, m, path) {
      var x, k, _ := EntersAt(cells, where, away, m, path);
      assert false;
    }
  }

  /** Once stored, a value that shares nothing is part of a document that shares nothing. */
  lemma Absorb(cells: Cells, after: Cells, where: Addresses, wider: Addresses, away: set<Mapping>, at: Path,
               value: Entry, offsets: Addresses)
    requires Whole(cells, where) && NewOnlyAt(cells, after, where, wider, at, value) && Apart(after, wider, away)
    requires Unshared(after, offsets, value) && offsets.Keys <= away
    ensures Apart(after, wider + Shift(offsets, at), {}) && Extends(wider, wider + Shift(offsets, at), map[])
  {
    var whole := wider + Shift(offsets, at);
    forall x, k | x in after && x in whole && k in after[x] ensures Fits(after, whole, {}, x, k) {
      if x in wider {
        assert Fits(after, wider, away, x, k);
        assert LeadsOut(after, wider, x, k) ==> after[x][k] == value && wider[x] + [k] == at;
        assert at + [] == at;
      } else {
        assert Fits(after, offsets, {}, x, k);
        assert x in offsets;
        assert forall y :: y in offsets && offsets[y] == offsets[x] + [k] ==> at + offsets[y] == at + offsets[x] + [k];
      }
    }
  }

  /** The document and the values still to be stored, after `n` overrides. */
  ghost predicate Gathered(first: Cells, cells: Cells, where: Addresses, root: Mapping, away: set<Mapping>) {
    && Apart(cells, where, {}) && root in where && where[root] == [] && where.Keys !! away
    && forall x :: x in away ==> x in first && x in cells && cells[x] == first[x]
  }

  lemma TerritoryStep(cells: Cells, offsets: map<string, Addresses>, overrides: map<string, Entry>, order: seq<string>,
                      n: nat)
    requires 0 < n <= |order| && NoDup(order) && Separate(cells, offsets, overrides, order)
    ensures Territory(offsets, order[n - 1..]) == offsets[order[n - 1]].Keys + Territory(offsets, order[n..])
    ensures offsets[order[n - 1]].Keys !! Territory(offsets, order[n..])
  {
    var p := order[n - 1];
    assert p in order;
    forall q | q in order[n..] ensures q in order && q != p {
      var i :| 0 <= i < |order[n..]| && order[n..][i] == q;
      assert order[n + i] == q;
    }
    assert order[n - 1..] == [p] + order[n..];
    assert forall q :: q in order[n - 1..] <==> q == p || q in order[n..];
  }

  /** One override on a document and values that share nothing. */
  lemma GatherOne(first: Cells, cells: Cells, where: Addresses, root: Mapping, path: Path, value: Entry, v: Value,
                  offsets: Addresses, rest: set<Mapping>, doc: Document, after: Cells)
    returns (wider: Addresses)
    requires Gathered(first, cells, where, root, offsets.Keys + rest) && offsets.Keys !! rest
    requires Apart(first, map[], offsets.Keys + rest) && Unshared(first, offsets, value) && Holds(first, value, v)
    requires path != [] && SetTo(cells, after, root, path, value) && Holds(cells, Sub(root), Dict(doc))
    ensures Gathered(first, after, wider, root, rest)
    ensures Put(doc, path, v).Ok? && Holds(after, Sub(root), Dict(Put(doc, path, v).value))
  {
    hide SetTo, Holds;
    var away := offsets.Keys + rest;
    ApartSame(first, cells, map[], away);
    TogetherApart(cells, where, away);
    WholeStays(cells, where, away, root, path);
    HoldsAway(first, cells, map[], away, value, v);
    var between := SetInside(cells, where, away, root, path, value, after);
    assert [] + path == path;
    AwayKept(cells, after, where, away, root, path[0]);
    ApartSame(first, after, offsets, {});
    Absorb(cells, after, where, between, away, path, value, offsets);
    wider := between + Shift(offsets, path);
    SetIsPut(cells, where, away, root, doc, path, value, v, after);
  }

  lemma {:induction false} UnsharedAsValues(states: seq<Cells>, root: Mapping, overrides: map<string, Entry>,
                                            order: seq<string>, where: Addresses, offsets: map<string, Addresses>,
                                            doc: Document, values: map<string, Value>, n: nat)
    returns (wider: Addresses)
    requires Run(states, root, overrides, order) && n <= |order| && NoDup(order)
    requires Gathered(states[0], states[0], where, root, Territory(offsets, order))
    requires Separate(states[0], offsets, overrides, order) && Stand(states[0], order, overrides, values)
    requires Holds(states[0], Sub(root), Dict(doc))
    ensures Gathered(states[0], states[n], wider, root, Territory(offsets, order[n..]))
    ensures HoldsApplied(states[n], root, doc, values, order, n)
    decreases n
  {
    hide Gathered, SetTo, Split, Holds, Apart, Territory;
    if n == 0 {
      wider := where;
      assert order[..0] == [] && order[0..] == order;
    } else {
      var w := UnsharedAsValues(states, root, overrides, order, where, offsets, doc, values, n - 1);
      var p, here := order[n - 1], ApplyAll(doc, values, order[..n - 1]).value;
      assert p in order;
      assert Holds(states[0], overrides[p], values[p]);
      TerritoryStep(states[0], offsets, overrides, order, n);
      TerritoryIsClosed(states[0], offsets, overrides, order, order[n - 1..]);
      wider := GatherOne(states[0], states[n - 1], w, root, Split(p, '.'), overrides[p], values[p], offsets[p],
                         Territory(offsets, order[n..]), here, states[n]);
      OneMore(doc, values, order, n, states[n - 1], root, here);
    }
  }

  // ---------------------------------------------------------------------------
  // From the copy to the result
  // ---------------------------------------------------------------------------

  /** The copy holds what the document holds. */
  lemma {:induction false} CopyHolds(before: Cells, after: Cells, document: Mapping, image: Image, e: Entry, v: Value)
    requires Copied(before, after, document, image) && Holds(before, e, v) && (e.Sub? ==> e.mapping in image)
    ensures Holds(after, RenameEntry(e, image), v)
    decreases v
  {
    if e.Sub? {
      forall k | k in v.fields ensures Holds(after, after[image[e.mapping]][k], v.fields[k]) {
        CopyHolds(before, after, document, image, before[e.mapping][k], v.fields[k]);
      }
    }
  }

  /** What was there before the copy holds what it held. */
  lemma {:induction false} OldHolds(before: Cells, after: Cells, document: Mapping, image: Image, e: Entry, v: Value)
    requires Copied(before, after, document, image) && Holds(before, e, v)
    ensures Holds(after, e, v)
    decreases v
  {
    if e.Sub? {
      forall k | k in v.fields ensures Holds(after, after[e.mapping][k], v.fields[k]) {
        OldHolds(before, after, document, image, before[e.mapping][k], v.fields[k]);
      }
    }
  }

  /** Where the mappings of the copy are. */
  ghost function CopiedTo(where: Addresses, image: Image, cells: Cells): (r: Addresses)
    requires Fresh(image, cells)
    ensures forall m :: m in image && m in where ==> image[m] in r && r[image[m]] == where[m]
    ensures forall x :: x in r ==> x !in cells && exists m :: m in image && m in where && image[m] == x
  {
    map m | m in image && m in where :: image[m] := where[m]
  }

  /** The copy of a document that shares nothing shares nothing, and nothing refers to it. */
  lemma CopyIsUnshared(before: Cells, after: Cells, document: Mapping, image: Image, where: Addresses)
    requires Copied(before, after, document, image) && Unshared(before, where, Sub(document))
    ensures Unshared(after, CopiedTo(where, image, before), Sub(image[document]))
  {
    var there := CopiedTo(where, image, before);
    forall x | x in there ensures x in after {
      var m :| m in image && m in where && image[m] == x;
    }
    forall x, k | x in after && x in there && k in after[x] ensures Fits(after, there, {}, x, k) {
      var m :| m in image && m in where && image[m] == x;
      assert Fits(before, where, {}, m, k);
      assert after[x][k] == RenameEntry(before[m][k], image);
    }
  }

  lemma ClosedIsApart(before: Cells, after: Cells, document: Mapping, image: Image)
    requires Copied(before, after, document, image) && Closed(before)
    ensures Apart(after, map[], before.Keys)
  {
    forall x, k | x in after && x in before && k in after[x] ensures Fits(after, map[], before.Keys, x, k) {
      assert Known(before, before[x][k]);
    }
  }

  lemma CopyIsTracked(before: Cells, after: Cells, document: Mapping, image: Image, where: Addresses,
                      order: seq<string>)
    requires Copied(before, after, document, image) && Closed(before) && Unshared(before, where, Sub(document))
    ensures Tracked(after, CopiedTo(where, image, before), before.Keys, image[document], order, 0)
  {
    CopyIsUnshared(before, after, document, image, where);
    ClosedIsApart(before, after, document, image);
    TogetherApart(after, CopiedTo(where, image, before), before.Keys);
  }

  /** The result of `ApplyFieldOverrides`, refusals included, is that of applying the values. */
  ghost predicate AsValues(states: seq<Cells>, root: Mapping, doc: Document, values: map<string, Value>,
                           order: seq<string>, error: Option<PathError>)
    requires states != [] && forall p :: p in order ==> p in values
  {
    match ApplyAll(doc, values, order)
    case Ok(d) => error == None && Holds(states[|states| - 1], Sub(root), Dict(d))
    case Err(e) => error == Some(e)
  }

  lemma {:induction false} FailureStays(doc: Document, values: map<string, Value>, order: seq<string>, n: nat)
    requires n <= |order| && (forall p :: p in order ==> p in values) && ApplyAll(doc, values, order[..n]).Err?
    ensures ApplyAll(doc, values, order) == ApplyAll(doc, values, order[..n])
    decreases |order|
  {
    if n == |order| {
      assert order[..n] == order;
    } else {
      assert order[..|order| - 1][..n] == order[..n];
      FailureStays(doc, values, order[..|order| - 1], n);
    }
  }

  lemma OutcomeAsValues(states: seq<Cells>, root: Mapping, overrides: map<string, Entry>, order: seq<string>,
                        doc: Document, values: map<string, Value>, error: Option<PathError>)
    requires Outcome(states, root, overrides, order, error) && forall p :: p in order ==> p in values
    requires HoldsApplied(states[|states| - 1], root, doc, values, order, |states| - 1)
    ensures AsValues(states, root, doc, values, order, error)
  {
    hide Holds, Run;
    var n := |states| - 1;
    if n == |order| {
      assert order[..n] == order;
    } else {
      var here := ApplyAll(doc, values, order[..n]).value;
      BlockedSame(states[n], root, here, Split(order[n], '.'), values[order[n]]);
      assert order[..n + 1][..n] == order[..n];
      FailureStays(doc, values, order, n + 1);
    }
  }

  lemma CopyStands(before: Cells, after: Cells, document: Mapping, doc: Document, image: Image,
                   overrides: map<string, Entry>, order: seq<string>, values: map<string, Value>)
    requires Copied(before, after, document, image) && Holds(before, Sub(document), Dict(doc))
    requires Stand(before, order, overrides, values)
    ensures Stand(after, order, overrides, values) && Holds(after, Sub(image[document]), Dict(doc))
    ensures forall p :: p in order ==> overrides[p].Sub? ==> overrides[p].mapping in before
  {
    CopyHolds(before, after, document, image, Sub(document), Dict(doc));
    forall p | p in order ensures Holds(after, overrides[p], values[p]) {
      OldHolds(before, after, document, image, overrides[p], values[p]);
    }
  }

  lemma NoneThroughSome(order: seq<string>, n: nat)
    requires NoneThrough(order, |order|) && n <= |order|
    ensures NoneThrough(order[..n], n)
  {
    forall j, k | 0 <= j < k < n ensures !Through(order[..n], j, k) {
      assert !Through(order, j, k);
    }
  }

  /**
   * A document that shares nothing, and overrides none of which goes through the path of an earlier one: then it does
   * not matter what the override values share.
   */
  lemma UnrelatedOverrides(before: Cells, where: Addresses, document: Mapping, doc: Document, image: Image,
                           states: seq<Cells>, overrides: map<string, Entry>, order: seq<string>,
                           values: map<string, Value>, error: Option<PathError>)
    requires Closed(before) && Unshared(before, where, Sub(document)) && Holds(before, Sub(document), Dict(doc))
    requires Stand(before, order, overrides, values)
    requires states != [] && Copied(before, states[0], document, image)
    requires Outcome(states, image[document], overrides, order, error) && NoneThrough(order, |order|)
    ensures AsValues(states, image[document], doc, values, order, error)
  {
    hide Holds, Tracked, Run, Unshared, NoneThrough, Closed, Apart, ApplyAll, AsValues, Fresh, SetError, HoldsApplied;
    var n := |states| - 1;
    CopyIsTracked(before, states[0], document, image, where, order[..n]);
    CopyStands(before, states[0], document, doc, image, overrides, order, values);
    SomeStand(states[0], order, overrides, values, n);
    NoneThroughSome(order, n);
    UnrelatedAsValues(states, image[document], overrides, order[..n], CopiedTo(where, image, before), before.Keys, doc,
                      values, n);
    AppliedToSome(states[n], image[document], doc, values, order, n);
    OutcomeAsValues(states, image[document], overrides, order, doc, values, error);
  }

  /** The copy and the override values, when neither the document nor the values share anything. */
  lemma CopyIsGathered(before: Cells, after: Cells, where: Addresses, document: Mapping, image: Image,
                       overrides: map<string, Entry>, order: seq<string>, n: nat, offsets: map<string, Addresses>)
    requires Unshared(before, where, Sub(document)) && Copied(before, after, document, image)
    requires n <= |order| && Separate(before, offsets, overrides, order)
    ensures Separate(after, offsets, overrides, order[..n])
    ensures Gathered(after, after, CopiedTo(where, image, before), image[document], Territory(offsets, order[..n]))
  {
    hide Apart;
    CopyIsUnshared(before, after, document, image, where);
    forall p | p in order[..n] ensures Unshared(after, offsets[p], overrides[p]) {
      assert p in order;
      AddressesThere(before, offsets[p]);
      ApartSame(before, after, offsets[p], {});
    }
    assert forall p :: p in order[..n] ==> p in order;
    TerritoryThere(before, offsets, overrides, order, order[..n]);
  }

  lemma SomeStand(cells: Cells, order: seq<string>, overrides: map<string, Entry>, values: map<string, Value>, n: nat)
    requires Stand(cells, order, overrides, values) && n <= |order|
    ensures Stand(cells, order[..n], overrides, values) && order[..n][..n] == order[..n]
    ensures NoDup(order) ==> NoDup(order[..n])
    ensures forall p :: p in order[..n] ==> p in order
  {
  }

  lemma AppliedToSome(cells: Cells, root: Mapping, doc: Document, values: map<string, Value>, order: seq<string>, n: nat)
    requires n <= |order| && forall p :: p in order ==> p in values
    requires forall p :: p in order[..n] ==> p in values
    requires HoldsApplied(cells, root, doc, values, order[..n], n)
    ensures HoldsApplied(cells, root, doc, values, order, n)
  {
    assert order[..n][..n] == order[..n];
  }

  lemma AddressesThere(cells: Cells, where: Addresses)
    requires Apart(cells, where, {})
    ensures where.Keys <= cells.Keys
  {
  }

  lemma TerritoryThere(cells: Cells, offsets: map<string, Addresses>, overrides: map<string, Entry>,
                       order: seq<string>, rest: seq<string>)
    requires Separate(cells, offsets, overrides, order) && forall p :: p in rest ==> p in order
    ensures Territory(offsets, rest) <= cells.Keys
  {
    TerritoryIsClosed(cells, offsets, overrides, order, rest);
  }

  /** A document and override values that share nothing: then overrides may go through one another. */
  lemma UnsharedOverrides(before: Cells, where: Addresses, document: Mapping, doc: Document, image: Image,
                          states: seq<Cells>, overrides: map<string, Entry>, order: seq<string>,
                          values: map<string, Value>, offsets: map<string, Addresses>, error: Option<PathError>)
    requires Unshared(before, where, Sub(document)) && Holds(before, Sub(document), Dict(doc))
    requires Stand(before, order, overrides, values)
    requires states != [] && Copied(before, states[0], document, image)
    requires Outcome(states, image[document], overrides, order, error)
    requires NoDup(order) && Separate(before, offsets, overrides, order)
    ensures AsValues(states, image[document], doc, values, order, error)
  {
    hide Holds, Run, Unshared, Apart, Separate, Gathered, Territory, ApplyAll, AsValues, Fresh, SetError, NoDup,
         HoldsApplied;
    var n := |states| - 1;
    CopyStands(before, states[0], document, doc, image, overrides, order, values);
    SomeStand(states[0], order, overrides, values, n);
    CopyIsGathered(before, states[0], where, document, image, overrides, order, n, offsets);
    var _ := UnsharedAsValues(states, image[document], overrides, order[..n], CopiedTo(where, image, before), offsets,
                              doc, values, n);
    AppliedToSome(states[n], image[document], doc, values, order, n);
    OutcomeAsValues(states, image[document], overrides, order, doc, values, error);
  }

  // ---------------------------------------------------------------------------
  // A value stored twice
  // ---------------------------------------------------------------------------

  /** `{"a": d, "c": d, "a.b": 1}` with `d == {}`. */
  const TWICE := ["a", "c", "a.b"]

  const EMPTY := Dict(map[])
  const ONE := Dict(map["b" := Num(1.0)])

  function TwiceEntries(d: Mapping): map<string, Entry> {
    map["a" := Sub(d), "c" := Sub(d), "a.b" := Leaf(Num(1.0))]
  }

  function TwiceValues(): map<string, Value> {
    map["a" := EMPTY, "c" := EMPTY, "a.b" := Num(1.0)]
  }

  /** An empty document, `d`, and the copy of the document. */
  function TwiceFirst(document: Mapping, d: Mapping, root: Mapping): Cells {
    map[document := map[], d := map[], root := map[]]
  }

  function TwiceLast(document: Mapping, d: Mapping, root: Mapping): Cells {
    map[document := map[], d := map["b" := Leaf(Num(1.0))], root := map["a" := Sub(d), "c" := Sub(d)]]
  }

  function TwiceStates(document: Mapping, d: Mapping, root: Mapping): seq<Cells> {
    var first := TwiceFirst(document, d, root);
    [first, first[root := map["a" := Sub(d)]], first[root := map["a" := Sub(d), "c" := Sub(d)]],
     TwiceLast(document, d, root)]
  }

  lemma OneLetter(c: char, rest: string, head: string, tail: seq<string>)
    requires c != '.' && Split(rest, '.') == [head] + tail
    ensures Split([c] + rest, '.') == [[c] + head] + tail
  {
    assert ([c] + rest)[1..] == rest;
    assert ([head] + tail)[1..] == tail;
  }

  lemma TwiceSplits()
    ensures Split("a", '.') == ["a"] && Split("c", '.') == ["c"] && Split("a.b", '.') == ["a", "b"]
  {
    OneLetter('a', "", "", []);
    OneLetter('b', "", "", []);
    OneLetter('c', "", "", []);
    assert ['a'] + "" == "a" && ['b'] + "" == "b" && ['c'] + "" == "c";
    assert ".b"[1..] == "b";
    OneLetter('a', ".b", "", ["b"]);
    assert ['a'] + ".b" == "a.b";
  }

  lemma TwiceStores(document: Mapping, d: Mapping, root: Mapping)
    requires document != d && root != document && root != d
    ensures var states: seq<Cells> := TwiceStates(document, d, root);
            && Applied(states[0], states[1], root, "a", Sub(d))
            && Applied(states[1], states[2], root, "c", Sub(d))
  {
    hide Split;
    TwiceSplits();
    var states: seq<Cells> := TwiceStates(document, d, root);
    assert states[1] == states[0][root := states[0][root]["a" := Sub(d)]];
    assert states[2] == states[1][root := states[1][root]["c" := Sub(d)]];
  }

  lemma TwiceWrites(document: Mapping, d: Mapping, root: Mapping)
    requires document != d && root != document && root != d
    ensures var states: seq<Cells> := TwiceStates(document, d, root);
            Applied(states[2], states[3], root, "a.b", Leaf(Num(1.0)))
  {
    hide Split;
    TwiceSplits();
    var states: seq<Cells> := TwiceStates(document, d, root);
    assert ["a", "b"][1..] == ["b"];
    assert states[3] == states[2][d := states[2][d]["b" := Leaf(Num(1.0))]];
  }

  lemma TwiceRuns(document: Mapping, d: Mapping, root: Mapping)
    requires document != d && root != document && root != d
    ensures Outcome(TwiceStates(document, d, root), root, TwiceEntries(d), TWICE, None)
  {
    hide Applied, TwiceFirst, TwiceLast;
    TwiceStores(document, d, root);
    TwiceWrites(document, d, root);
    assert TWICE[..3] == TWICE;
  }

  lemma TwiceSteps()
    ensures Put(map[], ["a"], EMPTY) == Ok(map["a" := EMPTY])
    ensures Put(map["a" := EMPTY], ["c"], EMPTY) == Ok(map["a" := EMPTY, "c" := EMPTY])
    ensures Put(map["a" := EMPTY, "c" := EMPTY], ["a", "b"], Num(1.0)) == Ok(map["a" := ONE, "c" := EMPTY])
  {
    assert ["a", "b"][1..] == ["b"];
    assert Put(map[], ["b"], Num(1.0)) == Ok(map["b" := Num(1.0)]);
    assert map["a" := EMPTY, "c" := EMPTY]["a" := ONE] == map["a" := ONE, "c" := EMPTY];
  }

  lemma TwiceApplied()
    ensures ApplyAll(map[], TwiceValues(), TWICE) == Ok(map["a" := ONE, "c" := EMPTY])
  {
    hide Split, Put;
    TwiceSplits();
    TwiceSteps();
    assert TWICE[..2] == ["a", "c"] && ["a", "c"][..1] == ["a"] && ["a"][..0] == [];
    assert ApplyAll(map[], TwiceValues(), ["a"]) == Ok(map["a" := EMPTY]);
    assert ApplyAll(map[], TwiceValues(), ["a", "c"]) == Ok(map["a" := EMPTY, "c" := EMPTY]);
  }

  lemma TwiceHolds(document: Mapping, d: Mapping, root: Mapping)
    requires document != d && root != document && root != d
    ensures Holds(TwiceLast(document, d, root), Sub(root), Dict(map["a" := ONE, "c" := ONE]))
  {
    var last := TwiceLast(document, d, root);
    assert Holds(last, Leaf(Num(1.0)), Num(1.0));
    assert Holds(last, Sub(d), ONE);
  }

  /**
   * Applied to an empty document, the last override writes `d`, which the caller gave and which the result also has
   * under `c`. Applying the values would leave `c` empty.
   */
  lemma StoredValueIsWritten(document: Mapping, d: Mapping, root: Mapping)
    requires document != d && root != document && root != d
    ensures var states := TwiceStates(document, d, root);
            && Copied(map[document := map[], d := map[]], states[0], document, map[document := root])
            && Outcome(states, root, TwiceEntries(d), TWICE, None)
            && states[0][d] == map[] && states[3][d] == map["b" := Leaf(Num(1.0))]
            && Holds(states[3], Sub(root), Dict(map["a" := ONE, "c" := ONE]))
    ensures ApplyAll(map[], TwiceValues(), TWICE) == Ok(map["a" := ONE, "c" := EMPTY])
  {
    hide Split, Outcome, ApplyAll, Holds;
    TwiceRuns(document, d, root);
    TwiceApplied();
    TwiceHolds(document, d, root);
  }
}
