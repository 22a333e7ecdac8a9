/** Dotted field paths: setting and resolving a field of a nested document. */
module FieldPaths {
  import opened Prelude

  type Document = map<string, Value>
  type Path = seq<string>

  // ---------------------------------------------------------------------------
  // Setting and resolving
  // ---------------------------------------------------------------------------

  /** The value at `path`, `Null` if a segment is missing or its parent is not a mapping. */
  function Resolve(v: Value, path: Path): Value {
    if path == [] then v
    else if v.Dict? && path[0] in v.fields then Resolve(v.fields[path[0]], path[1..])
    else Null
  }

  /** What `setdefault(key, {})` finds or creates. */
  function Child(doc: Document, key: string): Value {
    if key in doc then doc[key] else Dict(map[])
  }

  /** The document with `path` set, or the segment that is in the way because it is not a mapping. */
  function Put(doc: Document, path: Path, v: Value): Result<Document, string>
    requires path != []
    decreases |path|
  {
    if |path| == 1 then
      Ok(doc[path[0] := v])
    else if !Child(doc, path[0]).Dict? then
      Err(path[0])
    else
      match Put(Child(doc, path[0]).fields, path[1..], v)
      case Ok(sub) => Ok(doc[path[0] := Dict(sub)])
      case Err(part) => Err(part)
  }

  predicate Related(p: Path, q: Path) {
    p <= q || q <= p
  }

  /** A proper prefix of the path is present but not a mapping. */
  ghost predicate Blocked(doc: Document, path: Path) {
    exists n :: 1 <= n < |path| && Occupied(doc, path[..n])
  }

  /** Something other than a mapping is stored at `path`. */
  predicate Occupied(doc: Document, path: Path)
    decreases |path|
  {
    && path != [] && path[0] in doc
    && if |path| == 1 then !doc[path[0]].Dict?
       else doc[path[0]].Dict? && Occupied(doc[path[0]].fields, path[1..])
  }

  /** A set fails exactly when something stored on the way is not a mapping. */
  lemma {:induction false} FailsExactlyWhenBlocked(doc: Document, path: Path, v: Value)
    requires path != []
    ensures Put(doc, path, v).Err? <==> Blocked(doc, path)
    decreases |path|
  {
    if |path| > 1 {
      var key, rest := path[0], path[1..];
      assert path[..1] == [key];
      if !Child(doc, key).Dict? {
        assert Occupied(doc, path[..1]);
      } else {
        var fields := Child(doc, key).fields;
        FailsExactlyWhenBlocked(fields, rest, v);
        if Blocked(fields, rest) {
          var n :| 1 <= n < |rest| && Occupied(fields, rest[..n]);
          assert path[..n + 1][1..] == rest[..n];
          assert Occupied(doc, path[..n + 1]);
        }
        if Blocked(doc, path) {
          var n :| 1 <= n < |path| && Occupied(doc, path[..n]);
          assert path[..n][1..] == rest[..n - 1];
          assert Occupied(fields, rest[..n - 1]);
        }
      }
    }
  }

  /** After a set, the path resolves to the value, and what lies below it to what lies below the value. */
  lemma {:induction false} ResolveAfterSet(doc: Document, path: Path, v: Value, below: Path)
    requires path != [] && Put(doc, path, v).Ok?
    ensures Resolve(Dict(Put(doc, path, v).value), path + below) == Resolve(v, below)
    decreases |path|
  {
    assert (path + below)[1..] == path[1..] + below;
    if |path| == 1 {
      assert path[1..] + below == below;
    } else {
      ResolveAfterSet(Child(doc, path[0]).fields, path[1..], v, below);
    }
  }

  /** At every path not related to the one set, nothing changes. */
  lemma {:induction false} UnrelatedUnchanged(doc: Document, path: Path, v: Value, other: Path)
    requires path != [] && Put(doc, path, v).Ok? && !Related(path, other)
    ensures Resolve(Dict(Put(doc, path, v).value), other) == Resolve(Dict(doc), other)
    decreases |path|
  {
    if path[0] == other[0] {
      assert path == [path[0]] + path[1..] && other == [other[0]] + other[1..];
      UnrelatedUnchanged(Child(doc, path[0]).fields, path[1..], v, other[1..]);
    }
  }

  /** Above the path set there are mappings afterwards. */
  lemma {:induction false} MappingsAbove(doc: Document, path: Path, v: Value, n: nat)
    requires path != [] && n < |path| && Put(doc, path, v).Ok?
    ensures Resolve(Dict(Put(doc, path, v).value), path[..n]).Dict?
    decreases |path|
  {
    if n > 0 {
      assert path[..n][1..] == path[1..][..n - 1];
      MappingsAbove(Child(doc, path[0]).fields, path[1..], v, n - 1);
    }
  }

  // ---------------------------------------------------------------------------
  // Overrides
  // ---------------------------------------------------------------------------

  /** The text ends with a dot or has two dots in a row. */
  ghost predicate GapAfter(path: string) {
    path != "" && (path[|path| - 1] == '.' || exists i :: 0 < i < |path| && path[i - 1] == '.' && path[i] == '.')
  }

  lemma GapNext(path: string)
    requires path != ""
    ensures path[0] != '.' ==> (GapAfter(path) <==> GapAfter(path[1..]))
    ensures path[0] == '.' ==> (GapAfter(path) <==> path[1..] == "" || path[1..][0] == '.' || GapAfter(path[1..]))
  {
    var rest := path[1..];
    assert forall i :: 0 <= i < |rest| ==> rest[i] == path[i + 1];
    if i :| 1 < i < |path| && path[i - 1] == '.' && path[i] == '.' {
      assert rest[i - 2] == '.' && rest[i - 1] == '.';
    }
    if i :| 0 < i < |rest| && rest[i - 1] == '.' && rest[i] == '.' {
      assert path[i] == '.' && path[i + 1] == '.';
    }
  }

  /** A dotted text has an empty segment exactly if it is empty, starts or ends with a dot or has two in a row. */
  lemma {:induction false} EmptySegmentExactly(path: string)
    ensures Split(path, '.')[0] == "" <==> path == "" || path[0] == '.'
    ensures "" in Split(path, '.')[1..] <==> GapAfter(path)
    ensures "" in Split(path, '.') <==> path == "" || path[0] == '.' || GapAfter(path)
  {
    hide GapAfter;
    var parts := Split(path, '.');
    assert parts == [parts[0]] + parts[1..];
    if path == "" {
      NoGap();
    } else {
      var rest := Split(path[1..], '.');
      EmptySegmentExactly(path[1..]);
      GapNext(path);
      assert parts[1..] == if path[0] == '.' then rest else rest[1..];
      assert rest == [rest[0]] + rest[1..];
    }
  }

  lemma NoGap()
    ensures !GapAfter("")
  {
  }

  datatype PathError = EmptySegment(path: string) | NotAMapping(path: string, part: string)

  function SetPath(doc: Document, path: string, v: Value): Result<Document, PathError> {
    var parts := Split(path, '.');
    if "" in parts then
      Err(EmptySegment(path))
    else
      match Put(doc, parts, v)
      case Ok(d) => Ok(d)
      case Err(part) => Err(NotAMapping(path, part))
  }

  function Then(r: Result<Document, PathError>, path: string, v: Value): Result<Document, PathError> {
    if r.Ok? then SetPath(r.value, path, v) else r
  }

  /** Both fail, or both give the same document. */
  predicate Agree<T(==), E>(a: Result<T, E>, b: Result<T, E>) {
    a.Ok? == b.Ok? && (a.Ok? ==> a.value == b.value)
  }

  function PutThen(r: Result<Document, string>, path: Path, v: Value): Result<Document, string>
    requires path != []
  {
    if r.Ok? then Put(r.value, path, v) else r
  }

  /** Sets of unrelated paths commute, failures included. */
  lemma {:induction false} PutsCommute(doc: Document, p: Path, v: Value, q: Path, w: Value)
    requires p != [] && q != [] && !Related(p, q)
    ensures Agree(PutThen(Put(doc, p, v), q, w), PutThen(Put(doc, q, w), p, v))
    decreases |p|
  {
    hide Put;
    if p[0] == q[0] {
      assert p == [p[0]] + p[1..] && q == [q[0]] + q[1..];
      if Child(doc, p[0]).Dict? {
        PutsCommute(Child(doc, p[0]).fields, p[1..], v, q[1..], w);
        PutTwice(doc, p, v, q, w);
        PutTwice(doc, q, w, p, v);
      } else {
        PutThroughOther(doc, p, v);
        PutThroughOther(doc, q, w);
      }
    } else {
      PutElsewhere(doc, p, v, q, w);
      PutElsewhere(doc, q, w, p, v);
      if Put(doc, p, v).Ok? && Put(doc, q, w).Ok? {
        var x, y := Put(doc, p, v).value[p[0]], Put(doc, q, w).value[q[0]];
        assert doc[p[0] := x][q[0] := y] == doc[q[0] := y][p[0] := x];
      }
    }
  }

  lemma PutThroughOther(doc: Document, p: Path, v: Value)
    requires |p| > 1 && !Child(doc, p[0]).Dict?
    ensures Put(doc, p, v).Err?
  {
  }

  /** Two sets that go through the same first segment are two sets below it. */
  lemma PutTwice(doc: Document, p: Path, v: Value, q: Path, w: Value)
    requires |p| > 1 && |q| > 1 && p[0] == q[0] && Child(doc, p[0]).Dict?
    ensures var below := PutThen(Put(Child(doc, p[0]).fields, p[1..], v), q[1..], w);
            PutThen(Put(doc, p, v), q, w) == if below.Ok? then Ok(doc[p[0] := Dict(below.value)]) else below
  {
    var first := Put(Child(doc, p[0]).fields, p[1..], v);
    if first.Ok? {
      var d := doc[p[0] := Dict(first.value)];
      assert Child(d, q[0]) == Dict(first.value);
      var second := Put(first.value, q[1..], w);
      if second.Ok? {
        assert d[p[0] := Dict(second.value)] == doc[p[0] := Dict(second.value)];
      }
    }
  }

  /** A set depends on, and writes, only the entry of its first segment. */
  lemma PutIsUpdate(doc: Document, p: Path, v: Value)
    requires p != []
    ensures Put(doc, p, v).Ok? ==>
              p[0] in Put(doc, p, v).value && Put(doc, p, v).value == doc[p[0] := Put(doc, p, v).value[p[0]]]
  {
  }

  lemma PutDependsOnChild(doc: Document, other: Document, p: Path, v: Value)
    requires p != [] && Child(other, p[0]) == Child(doc, p[0])
    ensures Put(other, p, v).Ok? == Put(doc, p, v).Ok?
    ensures Put(doc, p, v).Ok? ==>
              p[0] in Put(doc, p, v).value && Put(other, p, v).value == other[p[0] := Put(doc, p, v).value[p[0]]]
  {
  }

  /** A second set that starts with another segment adds its own entry, or fails, as it would have first. */
  lemma PutElsewhere(doc: Document, p: Path, v: Value, q: Path, w: Value)
    requires p != [] && q != [] && p[0] != q[0]
    ensures Put(doc, p, v).Ok? && Put(doc, q, w).Ok? ==>
              var x, y := Put(doc, p, v).value, Put(doc, q, w).value;
              p[0] in x && q[0] in y && Put(x, q, w) == Ok(doc[p[0] := x[p[0]]][q[0] := y[q[0]]])
    ensures Put(doc, p, v).Ok? && Put(doc, q, w).Err? ==> Put(Put(doc, p, v).value, q, w).Err?
  {
    hide Put;
    PutIsUpdate(doc, p, v);
    PutIsUpdate(doc, q, w);
    if Put(doc, p, v).Ok? {
      var x := Put(doc, p, v).value;
      assert Child(x, q[0]) == Child(doc, q[0]);
      PutDependsOnChild(doc, x, q, w);
    }
  }

  lemma SetsCommute(doc: Document, p: string, v: Value, q: string, w: Value)
    requires !Related(Split(p, '.'), Split(q, '.'))
    ensures Agree(Then(SetPath(doc, p, v), q, w), Then(SetPath(doc, q, w), p, v))
  {
    PutsCommute(doc, Split(p, '.'), v, Split(q, '.'), w);
  }

  /** The overrides applied in the order the dictionary lists them, stopping at the first that fails. */
  function ApplyAll(doc: Document, overrides: map<string, Value>, order: seq<string>): Result<Document, PathError>
    requires forall p :: p in order ==> p in overrides
  {
    if order == [] then
      Ok(doc)
    else
      var n := |order| - 1;
      Then(ApplyAll(doc, overrides, order[..n]), order[n], overrides[order[n]])
  }

  /** Keys of the dictionary, in some order, each once, no two of them related as paths. */
  ghost predicate Independent(overrides: map<string, Value>, order: seq<string>) {
    && (forall p :: p in order ==> p in overrides)
    && NoDup(order)
    && (forall p, q :: p in order && q in order && p != q ==> !Related(Split(p, '.'), Split(q, '.')))
  }

  lemma {:induction false} LastByChoice(doc: Document, overrides: map<string, Value>, order: seq<string>, i: nat)
    requires i < |order| && Independent(overrides, order)
    ensures Agree(ApplyAll(doc, overrides, order),
                  Then(ApplyAll(doc, overrides, Without(order, i)), order[i], overrides[order[i]]))
    decreases |order|
  {
    hide SetPath, Split, Related;
    var n := |order| - 1;
    if i < n {
      assert Independent(overrides, order[..n]);
      assert order[..n][i] == order[i];
      LastByChoice(doc, overrides, order[..n], i);
      assert Without(order, i)[..n - 1] == Without(order[..n], i);
      var r := ApplyAll(doc, overrides, Without(order[..n], i));
      if r.Ok? {
        SetsCommute(r.value, order[i], overrides[order[i]], order[n], overrides[order[n]]);
      }
    } else {
      assert Without(order, i) == order[..n];
    }
  }

  lemma HasMember(order: seq<string>)
    ensures order != [] ==> exists p :: p in order
  {
    if order != [] {
      assert order[0] in order;
    }
  }

  /** The order of unrelated overrides does not matter, not even for whether they can be applied. */
  lemma {:induction false} OrderIsIrrelevant(doc: Document, overrides: map<string, Value>, some: seq<string>,
                                             other: seq<string>)
    requires Independent(overrides, some) && Independent(overrides, other)
    requires forall p :: p in some <==> p in other
    ensures Agree(ApplyAll(doc, overrides, some), ApplyAll(doc, overrides, other))
    decreases |some|
  {
    hide SetPath, Split, Related;
    if some == [] {
      HasMember(other);
    } else {
      var n := |some| - 1;
      assert some[n] in other;
      var i :| 0 <= i < |other| && other[i] == some[n];
      var rest := Without(other, i);
      forall p ensures p in some[..n] <==> p in rest {
        assert p in some <==> p in some[..n] || p == some[n];
        assert p in other <==> p in rest || p == other[i];
        assert some[n] !in some[..n];
        assert other[i] !in rest;
      }
      OrderIsIrrelevant(doc, overrides, some[..n], rest);
      LastByChoice(doc, overrides, other, i);
    }
  }

  // ---------------------------------------------------------------------------
  // The methods
  // ---------------------------------------------------------------------------

  /** The reader that pairs with the setter. */
  method ResolveFieldPath(document: Document, path: string) returns (v: Value)
    ensures v == Resolve(Dict(document), Split(path, '.'))
  {
    var current := Dict(document);
    var segments := Split(path, '.');
    for n := 0 to |segments|
      invariant Resolve(current, segments[n..]) == Resolve(Dict(document), segments)
    {
      assert segments[n..][0] == segments[n] && segments[n..][1..] == segments[n + 1..];
      if current.Dict? && segments[n] in current.fields {
        current := current.fields[segments[n]];
      } else {
        return Null;
      }
    }
    v := current;
  }
}
