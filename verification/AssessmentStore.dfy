/** The file store: one document per record, and the listing that stops early. */
module AssessmentStore {
  import opened Prelude
  import opened Serialization
  import opened AssessmentRecords

  datatype StoreError = NotFound(id: string) | Unreadable(id: string)

  predicate Wanted(a: AssessmentRecord, changeId: Option<string>) {
    changeId.None? || a.changeId == changeId.value
  }

  /** The wanted records among the files, in the order of the files. */
  function Matching(records: map<string, AssessmentRecord>, order: seq<string>, changeId: Option<string>): seq<AssessmentRecord>
    requires forall id :: id in order ==> id in records
  {
    if order == [] then
      []
    else
      var n := |order| - 1;
      Matching(records, order[..n], changeId)
      + (if Wanted(records[order[n]], changeId) then [records[order[n]]] else [])
  }

  lemma {:induction false} MatchingPrefix(records: map<string, AssessmentRecord>, order: seq<string>,
                                          changeId: Option<string>, n: nat)
    requires n <= |order| && forall id :: id in order ==> id in records
    ensures Matching(records, order[..n], changeId) <= Matching(records, order, changeId)
    decreases |order|
  {
    if n == |order| {
      assert order[..n] == order;
    } else {
      MatchingPrefix(records, order[..|order| - 1], changeId, n);
      assert order[..|order| - 1][..n] == order[..n];
    }
  }

  lemma MatchingNext(records: map<string, AssessmentRecord>, order: seq<string>, changeId: Option<string>, n: nat)
    requires n < |order| && forall id :: id in order ==> id in records
    ensures Matching(records, order[..n + 1], changeId) ==
            Matching(records, order[..n], changeId)
            + (if changeId.None? || records[order[n]].changeId == changeId.value then [records[order[n]]] else [])
  {
    assert order[..n + 1][..n] == order[..n];
  }

  lemma MatchingStart(records: map<string, AssessmentRecord>, order: seq<string>, changeId: Option<string>)
    requires forall id :: id in order ==> id in records
    ensures Matching(records, order[..0], changeId) == []
  {
  }

  // ---------------------------------------------------------------------------
  // The newest first
  // ---------------------------------------------------------------------------

  type Times = map<string, int>

  ghost predicate Timed(order: seq<string>, saved: Times) {
    forall id :: id in order ==> id in saved
  }

  function InsertByAge(id: string, sorted: seq<string>, saved: Times): seq<string>
    requires id in saved && forall x :: x in sorted ==> x in saved
  {
    if sorted == [] || saved[sorted[|sorted| - 1]] >= saved[id] then sorted + [id]
    else InsertByAge(id, sorted[..|sorted| - 1], saved) + [sorted[|sorted| - 1]]
  }

  lemma {:induction false} InsertByAgeKeeps(id: string, sorted: seq<string>, saved: Times)
    requires id in saved && Timed(sorted, saved)
    ensures multiset(InsertByAge(id, sorted, saved)) == multiset(sorted) + multiset{id}
  {
    if sorted != [] && saved[sorted[|sorted| - 1]] < saved[id] {
      var n := |sorted| - 1;
      InsertByAgeKeeps(id, sorted[..n], saved);
      assert sorted == sorted[..n] + [sorted[n]];
    }
  }

  lemma SameMembers(a: seq<string>, b: seq<string>)
    requires multiset(a) == multiset(b)
    ensures forall id :: id in a <==> id in b
  {
    assert forall id :: id in a <==> id in multiset(a);
    assert forall id :: id in b <==> id in multiset(b);
  }

  /** Python's sort by modification time, reversed: files of the same time stay in the order they were listed. */
  function NewestFirst(files: seq<string>, saved: Times): (r: seq<string>)
    requires forall id :: id in files ==> id in saved
    ensures multiset(r) == multiset(files) && forall id :: id in r <==> id in files
  {
    if files == [] then []
    else
      var n := |files| - 1;
      var most := NewestFirst(files[..n], saved);
      InsertByAgeKeeps(files[n], most, saved);
      assert files == files[..n] + [files[n]];
      var r := InsertByAge(files[n], most, saved);
      SameMembers(r, files);
      r
  }

  ghost predicate ByAge(order: seq<string>, saved: Times)
    requires Timed(order, saved)
  {
    forall i, j :: 0 <= i < j < |order| ==> saved[order[i]] >= saved[order[j]]
  }

  lemma InsertByAgeMembers(id: string, sorted: seq<string>, saved: Times)
    requires id in saved && Timed(sorted, saved)
    ensures forall x :: x in InsertByAge(id, sorted, saved) <==> x == id || x in sorted
  {
    InsertByAgeKeeps(id, sorted, saved);
    forall x ensures x in InsertByAge(id, sorted, saved) <==> x == id || x in sorted {
      assert x in InsertByAge(id, sorted, saved) <==> x in multiset(InsertByAge(id, sorted, saved));
      assert x in sorted <==> x in multiset(sorted);
    }
  }

  lemma AppendByAge(order: seq<string>, last: string, saved: Times)
    requires Timed(order, saved) && ByAge(order, saved) && last in saved
    requires forall id :: id in order ==> saved[id] >= saved[last]
    ensures Timed(order + [last], saved) && ByAge(order + [last], saved)
  {
    forall i | 0 <= i < |order| ensures saved[order[i]] >= saved[last] {
      assert order[i] in order;
    }
  }

  lemma ByAgeFront(order: seq<string>, saved: Times)
    requires order != [] && Timed(order, saved) && ByAge(order, saved)
    ensures Timed(order[..|order| - 1], saved) && ByAge(order[..|order| - 1], saved)
    ensures forall id :: id in order[..|order| - 1] ==> saved[id] >= saved[order[|order| - 1]]
  {
    var n := |order| - 1;
    forall id | id in order[..n] ensures saved[id] >= saved[order[n]] {
      var j :| 0 <= j < n && order[..n][j] == id;
      assert order[j] == id;
    }
  }

  lemma {:induction false} InsertByAgeSorts(id: string, sorted: seq<string>, saved: Times)
    requires id in saved && Timed(sorted, saved) && ByAge(sorted, saved)
    ensures Timed(InsertByAge(id, sorted, saved), saved) && ByAge(InsertByAge(id, sorted, saved), saved)
  {
    hide ByAge;
    InsertByAgeMembers(id, sorted, saved);
    if sorted == [] {
      ByAgeOne(id, saved);
    } else {
      var n := |sorted| - 1;
      ByAgeFront(sorted, saved);
      if saved[sorted[n]] < saved[id] {
        InsertByAgeSorts(id, sorted[..n], saved);
        InsertByAgeMembers(id, sorted[..n], saved);
        AppendByAge(InsertByAge(id, sorted[..n], saved), sorted[n], saved);
      } else {
        assert sorted == sorted[..n] + [sorted[n]];
        AppendByAge(sorted, id, saved);
      }
    }
  }

  lemma ByAgeOne(id: string, saved: Times)
    requires id in saved
    ensures ByAge([] + [id], saved)
  {
  }

  lemma {:induction false} NewestFirstSorts(files: seq<string>, saved: Times)
    requires Timed(files, saved)
    ensures Timed(NewestFirst(files, saved), saved) && ByAge(NewestFirst(files, saved), saved)
  {
    if files != [] {
      var n := |files| - 1;
      NewestFirstSorts(files[..n], saved);
      InsertByAgeSorts(files[n], NewestFirst(files[..n], saved), saved);
    }
  }

  /** Every record is the one its file is named after. */
  ghost predicate Named(records: map<string, AssessmentRecord>) {
    forall id :: id in records ==> records[id].id == id
  }

  lemma {:induction false} MatchingMembers(records: map<string, AssessmentRecord>, order: seq<string>,
                                           changeId: Option<string>)
    requires Named(records) && forall id :: id in order ==> id in records
    ensures forall a :: a in Matching(records, order, changeId) ==>
              a.id in order && records[a.id] == a && Wanted(a, changeId)
    ensures forall id :: id in order && Wanted(records[id], changeId) ==> records[id] in Matching(records, order, changeId)
  {
    hide Wanted;
    if order != [] {
      var n := |order| - 1;
      MatchingMembers(records, order[..n], changeId);
      assert forall id :: id in order <==> id in order[..n] || id == order[n];
    }
  }

  /** Newest first. */
  ghost predicate Descending(rs: seq<AssessmentRecord>, saved: Times)
    requires forall a :: a in rs ==> a.id in saved
  {
    forall i, j :: 0 <= i < j < |rs| ==> saved[rs[i].id] >= saved[rs[j].id]
  }

  lemma DescendingNext(rs: seq<AssessmentRecord>, last: AssessmentRecord, saved: Times)
    requires (forall a :: a in rs ==> a.id in saved) && last.id in saved && Descending(rs, saved)
    requires forall a :: a in rs ==> saved[a.id] >= saved[last.id]
    ensures Descending(rs + [last], saved)
  {
    forall i | 0 <= i < |rs| ensures saved[rs[i].id] >= saved[last.id] {
      assert rs[i] in rs;
    }
  }

  lemma {:induction false} MatchingByAge(records: map<string, AssessmentRecord>, order: seq<string>,
                                         changeId: Option<string>, saved: Times)
    requires Named(records) && Timed(order, saved) && ByAge(order, saved) && forall id :: id in order ==> id in records
    ensures forall a :: a in Matching(records, order, changeId) ==> a.id in saved
    ensures Descending(Matching(records, order, changeId), saved)
  {
    hide Wanted, ByAge;
    MatchingMembers(records, order, changeId);
    if order != [] {
      var n := |order| - 1;
      ByAgeFront(order, saved);
      MatchingByAge(records, order[..n], changeId, saved);
      MatchingMembers(records, order[..n], changeId);
      DescendingNext(Matching(records, order[..n], changeId), records[order[n]], saved);
    }
  }

  lemma BeyondPrefix<T>(prefix: seq<T>, all: seq<T>, j: nat)
    requires prefix <= all && j < |all| && all[j] !in prefix
    ensures |prefix| <= j
  {
    assert forall i :: 0 <= i < |prefix| ==> prefix[i] == all[i] && prefix[i] in prefix;
  }

  /** What a listing leaves out comes after all it gives; if it gives fewer than the limit nothing is left out. */
  lemma LeftOutLater(all: seq<AssessmentRecord>, r: seq<AssessmentRecord>, saved: Times, left: AssessmentRecord,
                     a: AssessmentRecord)
    requires r <= all && (forall x :: x in all ==> x.id in saved) && Descending(all, saved)
    requires left in all && left !in r && a in r
    ensures saved[left.id] <= saved[a.id]
  {
    var j :| 0 <= j < |all| && all[j] == left;
    var i :| 0 <= i < |r| && r[i] == a;
    assert r[i] == all[i];
    BeyondPrefix(r, all, j);
  }

  /** No wanted record that a listing leaves out was saved after one it gives, and it gives them newest first. */
  lemma ListsTheNewest(records: map<string, AssessmentRecord>, files: seq<string>, saved: Times, limit: int,
                       changeId: Option<string>)
    requires Named(records) && Timed(files, saved) && forall id :: id in files ==> id in records
    ensures var r := Listed(records, NewestFirst(files, saved), limit, changeId);
            && (forall a :: a in r ==>
                  a.id in files && records[a.id] == a && (changeId.Some? ==> a.changeId == changeId.value))
            && (forall i, j :: 0 <= i < j < |r| ==> saved[r[i].id] >= saved[r[j].id])
            && (forall id, a ::
                  id in files && (changeId.Some? ==> records[id].changeId == changeId.value) && records[id] !in r && a in r ==>
                    saved[id] <= saved[a.id])
            && (forall id :: id in files && (changeId.Some? ==> records[id].changeId == changeId.value) && |r| < limit ==>
                  records[id] in r)
  {
    hide NewestFirst, Matching, Descending;
    var order := NewestFirst(files, saved);
    NewestFirstSorts(files, saved);
    MatchingMembers(records, order, changeId);
    MatchingByAge(records, order, changeId, saved);
    var all, r := Matching(records, order, changeId), Listed(records, order, limit, changeId);
    assert r <= all;
    forall i, j | 0 <= i < j < |r| ensures saved[r[i].id] >= saved[r[j].id] {
      assert r[i] == all[i] && r[j] == all[j];
      DescendingAt(all, saved, i, j);
    }
    forall id, a | id in files && Wanted(records[id], changeId) && records[id] !in r && a in r
      ensures saved[id] <= saved[a.id]
    {
      LeftOutLater(all, r, saved, records[id], a);
    }
  }

  lemma DescendingAt(rs: seq<AssessmentRecord>, saved: Times, i: nat, j: nat)
    requires (forall x :: x in rs ==> x.id in saved) && Descending(rs, saved) && i < j < |rs|
    ensures saved[rs[i].id] >= saved[rs[j].id]
  {
  }

  // ---------------------------------------------------------------------------
  // The listing
  // ---------------------------------------------------------------------------

  /** What a listing returns: the limit is looked at only after a record was added. */
  function Listed(records: map<string, AssessmentRecord>, order: seq<string>, limit: int, changeId: Option<string>)
    : seq<AssessmentRecord>
    requires forall id :: id in order ==> id in records
  {
    var all := Matching(records, order, changeId);
    if all == [] || |all| <= limit then all else if limit < 1 then all[..1] else all[..limit]
  }

  /** The newest matching records, and no more than the limit exactly when it is positive or nothing matches. */
  lemma LimitKeptExactly(records: map<string, AssessmentRecord>, order: seq<string>, limit: int, changeId: Option<string>)
    requires forall id :: id in order ==> id in records
    ensures Listed(records, order, limit, changeId) <= Matching(records, order, changeId)
    ensures limit >= 0 ==>
              (|Listed(records, order, limit, changeId)| <= limit <==>
               limit >= 1 || forall id :: id in order ==> !Wanted(records[id], changeId))
    ensures |Listed(records, order, limit, changeId)| < limit ==>
              Listed(records, order, limit, changeId) == Matching(records, order, changeId)
  {
    MatchingNone(records, order, changeId);
  }

  /** The loop stops with the listing, whether it runs out of files or reaches the limit. */
  lemma ListingStops(records: map<string, AssessmentRecord>, order: seq<string>, limit: int, changeId: Option<string>,
                     n: nat, r: seq<AssessmentRecord>)
    requires n <= |order| && forall id :: id in order ==> id in records
    requires r == Matching(records, order[..n], changeId)
    requires |r| <= 1 || |r| <= limit
    requires if n < |order| then r != [] && |r| >= limit else true
    ensures Listed(records, order, limit, changeId) == r
  {
    hide Matching;
    MatchingPrefix(records, order, changeId, n);
    if n == |order| {
      assert order[..n] == order;
    }
  }

  lemma {:induction false} MatchingNone(records: map<string, AssessmentRecord>, order: seq<string>, changeId: Option<string>)
    requires forall id :: id in order ==> id in records
    ensures Matching(records, order, changeId) == [] <==> forall id :: id in order ==> !Wanted(records[id], changeId)
  {
    if order != [] {
      var n := |order| - 1;
      MatchingNone(records, order[..n], changeId);
      assert order == order[..n] + [order[n]];
    }
  }

  class FileAssessmentStore {
    var changes: map<string, Value>
    var assessments: map<string, Value>
    /** When each assessment file was last written. */
    var saved: Times
    /** The assessments the files were written from. */
    ghost var records: map<string, AssessmentRecord>

    ghost predicate Valid()
      reads this
    {
      && records.Keys == assessments.Keys == saved.Keys
      && Named(records)
      && forall id :: id in records ==> assessments[id] == AssessmentTo(records[id])
    }

    constructor ()
      ensures Valid() && records == map[] && changes == map[] && saved == map[]
    {
      changes, assessments, saved, records := map[], map[], map[], map[];
    }

    method SaveChange(c: ChangeRecord)
      requires Valid()
      modifies this
      ensures Valid() && records == old(records) && saved == old(saved) && changes == old(changes)[c.id := ChangeTo(c)]
    {
      changes := changes[c.id := ChangeTo(c)];
    }

    method GetChange(id: string) returns (r: Result<ChangeRecord, StoreError>)
      ensures id !in changes <==> r == Err(NotFound(id))
      ensures id in changes ==> r == match ChangeFrom(changes[id])
                                     case Some(c) => Ok(c)
                                     case None => Err(Unreadable(id))
    {
      if id !in changes {
        return Err(NotFound(id));
      }
      var c := ChangeFrom(changes[id]);
      r := if c.Some? then Ok(c.value) else Err(Unreadable(id));
    }

    /** What is saved is what is got back, when and only when its operations are of the kind they are stored under. */
    method SaveAndGetChange(c: ChangeRecord) returns (r: Result<ChangeRecord, StoreError>)
      requires Valid()
      modifies this
      ensures Valid()
      ensures r == Ok(c) <==> forall op :: op in c.operations ==> Storable(op)
    {
      hide ChangeTo, ChangeFrom, Storable;
      SaveChange(c);
      ChangeRoundTrip(c);
      r := GetChange(c.id);
    }

    /** `now` is what the clock shows. */
    method SaveAssessment(a: AssessmentRecord, now: int)
      requires Valid()
      modifies this
      ensures Valid() && records == old(records)[a.id := a] && changes == old(changes)
      ensures saved == old(saved)[a.id := now]
    {
      hide AssessmentTo;
      assessments := assessments[a.id := AssessmentTo(a)];
      saved := saved[a.id := now];
      records := records[a.id := a];
    }

    /** The assessment last saved under the id. */
    method GetAssessment(id: string) returns (r: Result<AssessmentRecord, StoreError>)
      requires Valid()
      ensures r == if id in records then Ok(records[id]) else Err(NotFound(id))
    {
      hide AssessmentTo, AssessmentFrom;
      if id !in assessments {
        return Err(NotFound(id));
      }
      AssessmentRoundTrip(records[id]);
      var a := AssessmentFrom(assessments[id]);
      r := if a.Some? then Ok(a.value) else Err(Unreadable(id));
    }

    /** `files` is the directory listing. */
    method ListAssessments(files: seq<string>, limit: int := 50, changeId: Option<string> := None)
      returns (r: seq<AssessmentRecord>)
      requires Valid() && forall id :: id in files ==> id in records
      ensures r == Listed(records, NewestFirst(files, saved), limit, changeId)
    {
      hide AssessmentTo, AssessmentFrom, Matching, Listed, NewestFirst;
      r := [];
      var order := NewestFirst(files, saved);
      MatchingStart(records, order, changeId);
      for n := 0 to |order|
        invariant r == Matching(records, order[..n], changeId)
        invariant r == [] || |r| < limit
      {
        MatchingNext(records, order, changeId, n);
        assert order[n] in order;
        var a := GetAssessment(order[n]);
        if changeId.Some? && a.value.changeId != changeId.value {
          continue;
        }
        r := r + [a.value];
        if |r| >= limit {
          ListingStops(records, order, limit, changeId, n + 1, r);
          return;
        }
      }
      ListingStops(records, order, limit, changeId, |order|, r);
    }
  }
}
