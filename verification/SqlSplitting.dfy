/** Splitting a DDL clause at top-level separators, and a table reference at its dot. */
module SqlSplitting {
  import opened Prelude

  // ---------------------------------------------------------------------------
  // The scanner
  // ---------------------------------------------------------------------------

  /** Parenthesis depth and which kind of quote is open. */
  datatype Scan = Scan(depth: int, single: bool, double: bool)

  const START: Scan := Scan(0, false, false)

  predicate Special(c: char) {
    c == '\'' || c == '"' || c == '(' || c == ')'
  }

  /** Whether the scanner splits at `c`; quotes and parentheses are looked at first. */
  predicate SplitsAt(st: Scan, c: char, sep: char) {
    st == START && c == sep && !Special(c)
  }

  function Next(st: Scan, c: char): Scan {
    if !st.double && c == '\'' && !st.single then st.(single := true)
    else if st.single && c == '\'' then st.(single := false)
    else if !st.single && c == '"' then st.(double := !st.double)
    else if !st.single && !st.double && c == '(' then st.(depth := st.depth + 1)
    else if !st.single && !st.double && c == ')' then st.(depth := st.depth - 1)
    else st
  }

  function ScanAll(st: Scan, text: string): Scan
    decreases |text|
  {
    if text == "" then st else ScanAll(Next(st, text[0]), text[1..])
  }

  /** No separator in `text` is at the top level. */
  predicate Whole(st: Scan, text: string, sep: char)
    decreases |text|
  {
    text != "" ==> !SplitsAt(st, text[0], sep) && Whole(Next(st, text[0]), text[1..], sep)
  }

  /** Put `head` in front of the first piece. */
  function Attach(head: string, pieces: seq<string>): seq<string>
    requires pieces != []
  {
    [head + pieces[0]] + pieces[1..]
  }

  /** The text cut at its top-level separators, nothing stripped or dropped. */
  function Pieces(st: Scan, text: string, sep: char): (r: seq<string>)
    ensures r != []
    decreases |text|
  {
    if text == "" then [""]
    else if SplitsAt(st, text[0], sep) then [""] + Pieces(st, text[1..], sep)
    else Attach([text[0]], Pieces(Next(st, text[0]), text[1..], sep))
  }

  /** Pieces no top-level separator falls into, each but the last closing what it opens. */
  predicate Decomposition(st: Scan, parts: seq<string>, sep: char)
    requires parts != []
    decreases |parts|
  {
    && Whole(st, parts[0], sep)
    && (|parts| > 1 ==> ScanAll(st, parts[0]) == START && Decomposition(START, parts[1..], sep))
  }

  lemma {:induction false} PiecesRebuild(st: Scan, text: string, sep: char)
    ensures Join(Pieces(st, text, sep), sep) == text
    decreases |text|
  {
    if text != "" {
      if SplitsAt(st, text[0], sep) {
        var rest := Pieces(st, text[1..], sep);
        PiecesRebuild(st, text[1..], sep);
        assert ([""] + rest)[1..] == rest;
        assert "" + [sep] + text[1..] == text;
      } else {
        var rest := Pieces(Next(st, text[0]), text[1..], sep);
        PiecesRebuild(Next(st, text[0]), text[1..], sep);
        JoinAttach([text[0]], rest, sep);
        assert [text[0]] + text[1..] == text;
      }
    }
  }

  lemma JoinAttach(head: string, pieces: seq<string>, sep: char)
    requires pieces != []
    ensures Join(Attach(head, pieces), sep) == head + Join(pieces, sep)
  {
    assert Attach(head, pieces)[1..] == pieces[1..];
    if |pieces| > 1 {
      assert (head + pieces[0]) + [sep] + Join(pieces[1..], sep) == head + (pieces[0] + [sep] + Join(pieces[1..], sep));
    }
  }

  lemma {:induction false} PiecesDecompose(st: Scan, text: string, sep: char)
    ensures Decomposition(st, Pieces(st, text, sep), sep)
    decreases |text|
  {
    if text != "" {
      if SplitsAt(st, text[0], sep) {
        PiecesDecompose(st, text[1..], sep);
        assert ([""] + Pieces(st, text[1..], sep))[1..] == Pieces(st, text[1..], sep);
      } else {
        PiecesDecompose(Next(st, text[0]), text[1..], sep);
        DecompositionAttach(st, text[0], Pieces(Next(st, text[0]), text[1..], sep), sep);
      }
    }
  }

  lemma DecompositionAttach(st: Scan, c: char, pieces: seq<string>, sep: char)
    requires pieces != [] && !SplitsAt(st, c, sep) && Decomposition(Next(st, c), pieces, sep)
    ensures Decomposition(st, Attach([c], pieces), sep)
  {
    var first := [c] + pieces[0];
    assert first[0] == c && first[1..] == pieces[0];
    assert Attach([c], pieces)[1..] == pieces[1..];
  }

  /** A list of pieces that fits is what the scanner finds in their join. */
  lemma {:induction false} JoinIsCut(st: Scan, parts: seq<string>, sep: char)
    requires parts != [] && !Special(sep) && Decomposition(st, parts, sep)
    ensures Pieces(st, Join(parts, sep), sep) == parts
    decreases |parts|, |parts[0]|
  {
    var text := Join(parts, sep);
    if parts[0] == "" {
      if |parts| == 1 {
        assert parts == [""];
      } else {
        JoinIsCut(START, parts[1..], sep);
        assert text == [sep] + Join(parts[1..], sep);
        assert text[1..] == Join(parts[1..], sep);
        assert parts == [""] + parts[1..];
      }
    } else {
      var c := parts[0][0];
      var less := [parts[0][1..]] + parts[1..];
      assert less[1..] == parts[1..];
      assert [c] + parts[0][1..] == parts[0];
      assert parts == Attach([c], less);
      JoinAttach([c], less, sep);
      JoinIsCut(Next(st, c), less, sep);
      assert text[0] == c && text[1..] == Join(less, sep);
    }
  }

  /** The cut of a text is the one decomposition that joins back to it. */
  lemma CutIsUnique(text: string, parts: seq<string>, sep: char)
    requires parts != [] && !Special(sep)
    ensures parts == Pieces(START, text, sep) <==> Join(parts, sep) == text && Decomposition(START, parts, sep)
  {
    PiecesRebuild(START, text, sep);
    PiecesDecompose(START, text, sep);
    if Join(parts, sep) == text && Decomposition(START, parts, sep) {
      JoinIsCut(START, parts, sep);
    }
  }

  /** A text is kept in one piece exactly when no separator in it is at the top level. */
  lemma KeptWholeExactly(text: string, sep: char)
    requires !Special(sep)
    ensures Pieces(START, text, sep) == [text] <==> Whole(START, text, sep)
  {
    CutIsUnique(text, [text], sep);
  }

  /** The scanner does not know `$$` quoting: a body written between `$$` is cut like any other text. */
  lemma DollarBodyIsCut()
    ensures Pieces(START, "$$a,b$$", ',') == ["$$a", "b$$"] && !Whole(START, "$$a,b$$", ',')
  {
    var parts := ["$$a", "b$$"];
    assert parts[1..] == ["b$$"];
    assert Join(parts, ',') == "$$a" + "," + "b$$" == "$$a,b$$";
    PlainFirst("$$a");
    PlainFirst("b$$");
    CutIsUnique("$$a,b$$", parts, ',');
    KeptWholeExactly("$$a,b$$", ',');
  }

  lemma {:induction false} PlainFirst(text: string)
    requires forall i :: 0 <= i < |text| ==> !Special(text[i]) && text[i] != ','
    ensures Whole(START, text, ',') && ScanAll(START, text) == START
  {
    if text != "" {
      PlainFirst(text[1..]);
    }
  }

  // ---------------------------------------------------------------------------
  // Stripping
  // ---------------------------------------------------------------------------

  /** The characters Python's `str.strip` removes. */
  predicate IsSpace(c: char) {
    var n := c as int;
    || 0x09 <= n <= 0x0D || 0x1C <= n <= 0x20 || n == 0x85 || n == 0xA0 || n == 0x1680
    || 0x2000 <= n <= 0x200A || n == 0x2028 || n == 0x2029 || n == 0x202F || n == 0x205F || n == 0x3000
  }

  function StripLeft(s: string): string {
    if s != "" && IsSpace(s[0]) then StripLeft(s[1..]) else s
  }

  function StripRight(s: string): string {
    if s != "" && IsSpace(s[|s| - 1]) then StripRight(s[..|s| - 1]) else s
  }

  function Strip(s: string): string {
    StripRight(StripLeft(s))
  }

  function DropTrailing(s: string, c: char): string {
    if s != "" && s[|s| - 1] == c then DropTrailing(s[..|s| - 1], c) else s
  }

  predicate Blank(s: string) {
    forall i :: 0 <= i < |s| ==> IsSpace(s[i])
  }

  predicate Tight(s: string) {
    s != "" && !IsSpace(s[0]) && !IsSpace(s[|s| - 1])
  }

  lemma {:induction false} StripPadding(before: string, s: string, after: string)
    requires Blank(before) && Blank(after) && Tight(s)
    ensures Strip(before + s + after) == s
    decreases |before| + |after|
  {
    var all := before + s + after;
    if before != "" {
      assert all[0] == before[0] && all[1..] == before[1..] + s + after;
      StripPadding(before[1..], s, after);
    } else if after != "" {
      var n := |after| - 1;
      assert all[0] == s[0] && all[|all| - 1] == after[n];
      assert all[..|all| - 1] == before + s + after[..n];
      StripPadding(before, s, after[..n]);
    } else {
      assert all == s;
    }
  }

  /** The non-blank pieces, stripped. */
  function Tidy(pieces: seq<string>): seq<string> {
    if pieces == [] then []
    else (if Strip(pieces[0]) == "" then [] else [Strip(pieces[0])]) + Tidy(pieces[1..])
  }

  function TopLevelSplit(text: string, sep: char): seq<string> {
    Tidy(Pieces(START, text, sep))
  }

  lemma {:induction false} TidyAppend(a: seq<string>, b: seq<string>)
    ensures Tidy(a + b) == Tidy(a) + Tidy(b)
  {
    if a == [] {
      assert a + b == b;
    } else {
      assert (a + b)[1..] == a[1..] + b;
      TidyAppend(a[1..], b);
    }
  }

  method SplitTopLevel(text: string, sep: char) returns (r: seq<string>)
    ensures r == TopLevelSplit(text, sep)
  {
    var parts := CutPieces(text, sep);
    r := [];
    for n := 0 to |parts|
      invariant r == Tidy(parts[..n])
    {
      assert parts[..n + 1] == parts[..n] + [parts[n]];
      TidyAppend(parts[..n], [parts[n]]);
      if Strip(parts[n]) != "" {
        r := r + [Strip(parts[n])];
      }
    }
    assert parts[..|parts|] == parts;
  }

  /** The character loop. */
  method CutPieces(text: string, sep: char) returns (parts: seq<string>)
    ensures parts == Pieces(START, text, sep)
  {
    hide Pieces, Attach;
    parts := [];
    var current := "";
    var depth, inSingle, inDouble := 0, false, false;
    var i := 0;
    AttachNothing(Pieces(START, text, sep));
    assert text[0..] == text;
    while i < |text|
      invariant i <= |text|
      invariant Pieces(START, text, sep) ==
                parts + Attach(current, Pieces(Scan(depth, inSingle, inDouble), text[i..], sep))
    {
      var c := text[i];
      PiecesStep(Scan(depth, inSingle, inDouble), text, i, sep, current, parts);
      if !inDouble && c == '\'' && !inSingle {
        inSingle := true;
      } else if inSingle && c == '\'' {
        inSingle := false;
      } else if !inSingle && c == '"' {
        inDouble := !inDouble;
      } else if !inSingle && !inDouble {
        if c == '(' {
          depth := depth + 1;
        } else if c == ')' {
          depth := depth - 1;
        } else if c == sep && depth == 0 {
          parts := parts + [current];
          current := "";
          i := i + 1;
          continue;
        }
      }
      current := current + [c];
      i := i + 1;
    }
    assert text[i..] == "";
    PiecesEnd(Scan(depth, inSingle, inDouble), current, sep);
    parts := parts + [current];
  }

  lemma PiecesEnd(st: Scan, current: string, sep: char)
    ensures Attach(current, Pieces(st, "", sep)) == [current]
  {
    assert current + "" == current;
  }

  lemma AttachNothing(pieces: seq<string>)
    requires pieces != []
    ensures Attach("", pieces) == pieces
  {
    assert "" + pieces[0] == pieces[0];
    assert [pieces[0]] + pieces[1..] == pieces;
  }

  lemma PiecesStep(st: Scan, text: string, i: nat, sep: char, current: string, parts: seq<string>)
    requires i < |text|
    ensures parts + Attach(current, Pieces(st, text[i..], sep)) ==
            if SplitsAt(st, text[i], sep) then
              parts + [current] + Attach("", Pieces(st, text[i + 1..], sep))
            else
              parts + Attach(current + [text[i]], Pieces(Next(st, text[i]), text[i + 1..], sep))
  {
    assert text[i..][0] == text[i] && text[i..][1..] == text[i + 1..];
    if SplitsAt(st, text[i], sep) {
      var rest := Pieces(st, text[i + 1..], sep);
      assert current + "" == current && "" + rest[0] == rest[0];
      assert Attach(current, [""] + rest) == [current] + rest;
      AttachNothing(rest);
    } else {
      var rest := Pieces(Next(st, text[i]), text[i + 1..], sep);
      assert current + ([text[i]] + rest[0]) == (current + [text[i]]) + rest[0];
      assert Attach(current, Attach([text[i]], rest)) == Attach(current + [text[i]], rest);
    }
  }

  /** Splitting the join of parts that close what they open returns the parts, stripped, without the blank ones. */
  lemma SplitInvertsJoin(parts: seq<string>, sep: char)
    requires parts != [] && !Special(sep) && Decomposition(START, parts, sep)
    ensures TopLevelSplit(Join(parts, sep), sep) == Tidy(parts)
  {
    JoinIsCut(START, parts, sep);
  }

  // ---------------------------------------------------------------------------
  // Table references
  // ---------------------------------------------------------------------------

  function Unquote(ident: string): string {
    var s := Strip(ident);
    if s != "" && s[0] == '"' && s[|s| - 1] == '"' then
      (if |s| == 1 then "" else s[1..|s| - 1])
    else
      s
  }

  /** The first index at or after `from` where `pattern` occurs, else the length of `s`. */
  function Find(s: string, pattern: string, from: nat): (i: nat)
    requires from <= |s|
    ensures from <= i <= |s|
    decreases |s| - from
  {
    if from == |s| || pattern <= s[from..] then from else Find(s, pattern, from + 1)
  }

  predicate OccursAt(s: string, pattern: string, i: nat) {
    i < |s| && pattern <= s[i..]
  }

  lemma {:induction false} FindIsFirst(s: string, pattern: string, from: nat, i: nat)
    requires from <= i <= |s|
    requires i < |s| ==> OccursAt(s, pattern, i)
    requires forall j :: from <= j < i ==> !OccursAt(s, pattern, j)
    ensures Find(s, pattern, from) == i
    decreases i - from
  {
    if from < i {
      assert !OccursAt(s, pattern, from);
      FindIsFirst(s, pattern, from + 1, i);
    }
  }

  const QUOTED_DOT: string := "\".\""

  /** Schema and table of a reference; the schema defaults to `public`. */
  function SplitQualified(reference: string): (string, string) {
    var raw := Strip(DropTrailing(Strip(reference), ';'));
    var dot := Find(raw, ".", 0);
    if dot < |raw| && !(raw != "" && raw[0] == '"') then
      (Unquote(raw[..dot]), Unquote(raw[dot + 1..]))
    else
      var q := Find(raw, QUOTED_DOT, 0);
      if raw != "" && raw[0] == '"' && OccursAt(raw, QUOTED_DOT, q) then
        (Unquote(raw[..q] + "\""), Unquote("\"" + raw[q + 3..]))
      else
        ("public", Unquote(raw))
  }

  /** An identifier as written: plain, or in double quotes. */
  datatype Ident = Plain(text: string) | Quoted(text: string) {
    predicate Valid() {
      && text != ""
      && (Plain? ==> IsIdentStart(text[0]) && forall i :: 0 <= i < |text| ==> IsIdentChar(text[i]))
      && (Quoted? ==> '"' !in text)
    }

    function Print(): string {
      if Plain? then text else "\"" + text + "\""
    }
  }

  predicate IsIdentStart(c: char) {
    'A' <= c <= 'Z' || 'a' <= c <= 'z' || c == '_'
  }

  predicate IsIdentChar(c: char) {
    IsIdentStart(c) || '0' <= c <= '9' || c == '$'
  }

  datatype TableRef = TableRef(schema: Option<Ident>, name: Ident) {
    predicate Valid() {
      name.Valid() && (schema.Some? ==> schema.value.Valid())
    }

    function Print(): string {
      if schema.Some? then schema.value.Print() + "." + name.Print() else name.Print()
    }

    function Meaning(): (string, string) {
      (if schema.Some? then schema.value.text else "public", name.text)
    }

    /** A quoted schema needs a quoted name, and a leading quoted identifier must not be a lone dot. */
    predicate Supported() {
      match schema
      case None => name != Quoted(".")
      case Some(s) => s.Quoted? ==> name.Quoted? && s.text != "."
    }
  }

  lemma PrintIsTight(id: Ident)
    requires id.Valid()
    ensures Tight(id.Print()) && id.Print()[|id.Print()| - 1] != ';'
    ensures Strip(id.Print()) == id.Print() && Unquote(id.Print()) == id.text
  {
    var s := id.Print();
    if id.Plain? {
      assert IsIdentChar(s[|s| - 1]);
    } else {
      assert s[1..|s| - 1] == id.text;
    }
    assert "" + s + "" == s;
    StripPadding("", s, "");
  }

  lemma RefIsTight(ref: TableRef)
    requires ref.Valid()
    ensures Tight(ref.Print()) && Strip(DropTrailing(Strip(ref.Print()), ';')) == ref.Print()
    ensures ref.Print()[0] == '"' <==> (if ref.schema.Some? then ref.schema.value else ref.name).Quoted?
  {
    var s := ref.Print();
    PrintIsTight(ref.name);
    if ref.schema.Some? {
      PrintIsTight(ref.schema.value);
      assert s[0] == ref.schema.value.Print()[0];
      assert s[|s| - 1] == ref.name.Print()[|ref.name.Print()| - 1];
    }
    assert "" + s + "" == s;
    StripPadding("", s, "");
  }

  /** A plain schema: the first dot separates, whatever is inside a quoted name. */
  lemma PlainSchemaSplits(ref: TableRef)
    requires ref.Valid() && ref.schema.Some? && ref.schema.value.Plain?
    ensures SplitQualified(ref.Print()) == ref.Meaning()
  {
    hide Strip, DropTrailing, Unquote, Find;
    RefIsTight(ref);
    var raw, p := ref.Print(), ref.schema.value.text;
    PlainSchemaDot(raw, p, ref.name.Print());
    assert raw[..|p|] == p && raw[|p| + 1..] == ref.name.Print();
    PrintIsTight(ref.schema.value);
    PrintIsTight(ref.name);
  }

  lemma PlainSchemaDot(raw: string, p: string, rest: string)
    requires raw == p + "." + rest && forall i :: 0 <= i < |p| ==> IsIdentChar(p[i])
    ensures Find(raw, ".", 0) == |p| && OccursAt(raw, ".", |p|)
  {
    forall j | 0 <= j < |p| ensures !OccursAt(raw, ".", j) {
      assert raw[j] == p[j] && IsIdentChar(p[j]);
      assert raw[j..][0] == raw[j];
    }
    assert raw[|p|..] == "." + rest;
    FindIsFirst(raw, ".", 0, |p|);
  }

  /** An occurrence of `"."` needs quotes two apart. */
  lemma OccursNeedsQuotes(raw: string, i: nat)
    ensures OccursAt(raw, QUOTED_DOT, i) <==> i + 2 < |raw| && raw[i] == '"' && raw[i + 1] == '.' && raw[i + 2] == '"'
  {
    assert |QUOTED_DOT| == 3;
    if i + 2 < |raw| {
      assert raw[i..][0] == raw[i] && raw[i..][1] == raw[i + 1] && raw[i..][2] == raw[i + 2];
    }
  }

  lemma NoQuotedDotBefore(raw: string, n: nat)
    requires n <= |raw|
    requires forall j :: 1 <= j < n ==> raw[j] != '"'
    requires n > 0 ==> !OccursAt(raw, QUOTED_DOT, 0)
    ensures forall j :: 0 <= j < n ==> !OccursAt(raw, QUOTED_DOT, j)
  {
    forall j | 0 <= j < n ensures !OccursAt(raw, QUOTED_DOT, j) {
      OccursNeedsQuotes(raw, j);
    }
  }

  /** How a reference that opens with a quote is read, once `"."` has been located in it. */
  lemma QuotedSplitsAt(raw: string, q: nat)
    requires raw != "" && raw[0] == '"' && Strip(DropTrailing(Strip(raw), ';')) == raw
    requires Find(raw, QUOTED_DOT, 0) == q
    ensures OccursAt(raw, QUOTED_DOT, q) ==>
              q + 3 <= |raw| && SplitQualified(raw) == (Unquote(raw[..q] + "\""), Unquote("\"" + raw[q + 3..]))
    ensures !OccursAt(raw, QUOTED_DOT, q) ==> SplitQualified(raw) == ("public", Unquote(raw))
  {
    hide Strip, DropTrailing, Find, Unquote;
    OccursNeedsQuotes(raw, q);
  }

  lemma QuotedPrint(raw: string, p: string, t: string)
    requires raw == "\"" + p + "\".\"" + t + "\""
    requires '"' !in p
    ensures var n := |p| + 1;
            && |raw| == n + 4 + |t| && raw[0] == '"' && raw[..n] + "\"" == "\"" + p + "\""
            && "\"" + raw[n + 3..] == "\"" + t + "\""
            && raw[n] == '"' && raw[n + 1] == '.' && raw[n + 2] == '"'
            && (p != "" ==> raw[1] == p[0])
            && forall j :: 1 <= j < n ==> raw[j] != '"'
  {
    var n := |p| + 1;
    forall j | 1 <= j < n ensures raw[j] != '"' {
      assert raw[j] == p[j - 1] && p[j - 1] in p;
    }
  }

  /** A quoted schema with a quoted name is split at the quotes between them. */
  lemma QuotedSchemaSplits(ref: TableRef)
    requires ref.Valid() && ref.schema.Some? && ref.schema.value.Quoted? && ref.name.Quoted?
    requires ref.schema.value.text != "."
    ensures SplitQualified(ref.Print()) == ref.Meaning()
  {
    hide Strip, DropTrailing, Find, Unquote, SplitQualified, OccursAt, Tight;
    RefIsTight(ref);
    var raw, p, t := ref.Print(), ref.schema.value.text, ref.name.text;
    var n := |p| + 1;
    assert raw == "\"" + p + "\".\"" + t + "\"";
    QuotedPrint(raw, p, t);
    assert !OccursAt(raw, QUOTED_DOT, 0) by {
      OccursNeedsQuotes(raw, 0);
      if |p| == 1 {
        assert p == [p[0]];
      } else {
        assert raw[2] != '"';
      }
    }
    NoQuotedDotBefore(raw, n);
    OccursNeedsQuotes(raw, n);
    FindIsFirst(raw, QUOTED_DOT, 0, n);
    QuotedSplitsAt(raw, n);
    PrintIsTight(ref.schema.value);
    PrintIsTight(ref.name);
  }

  /** A schema that is a quoted lone dot is taken for the separator itself. */
  lemma DotSchemaFails(ref: TableRef)
    requires ref.Valid() && ref.schema == Some(Quoted(".")) && ref.name.Quoted?
    ensures SplitQualified(ref.Print()) != ref.Meaning()
  {
    hide DropTrailing, Find, SplitQualified, OccursAt, Tight;
    RefIsTight(ref);
    var raw, t := ref.Print(), ref.name.text;
    assert raw == "\"" + "." + "\".\"" + t + "\"";
    QuotedPrint(raw, ".", t);
    OccursNeedsQuotes(raw, 0);
    FindIsFirst(raw, QUOTED_DOT, 0, 0);
    QuotedSplitsAt(raw, 0);
    assert raw[..0] + "\"" == "\"";
    assert Strip("\"") == "\"";
  }

  /** A quoted schema with a plain name is never understood: the name read still opens with a quote. */
  lemma MixedRefFails(ref: TableRef)
    requires ref.Valid() && ref.schema.Some? && ref.schema.value.Quoted? && ref.name.Plain?
    ensures SplitQualified(ref.Print()) != ref.Meaning()
  {
    hide Strip, DropTrailing, Find, Unquote, SplitQualified, OccursAt, Tight;
    RefIsTight(ref);
    var raw, p, t := ref.Print(), ref.schema.value.text, ref.name.text;
    assert raw == "\"" + p + "\"." + t;
    assert IsIdentChar(t[|t| - 1]) && raw[|raw| - 1] == t[|t| - 1];
    assert IsIdentStart(t[0]);
    var q := Find(raw, QUOTED_DOT, 0);
    QuotedSplitsAt(raw, q);
    UnquoteKeepsQuote(raw);
    if OccursAt(raw, QUOTED_DOT, q) {
      OccursNeedsQuotes(raw, q);
      UnquoteKeepsQuote("\"" + raw[q + 3..]);
    }
  }

  lemma UnquoteKeepsQuote(s: string)
    requires s != "" && s[0] == '"' && s[|s| - 1] != '"' && !IsSpace(s[|s| - 1])
    ensures Unquote(s) == s
  {
    assert "" + s + "" == s;
    StripPadding("", s, "");
  }

  lemma PlainNameSplits(ref: TableRef)
    requires ref.Valid() && ref.schema.None? && ref.name.Plain?
    ensures SplitQualified(ref.Print()) == ref.Meaning()
  {
    hide Strip, DropTrailing, Unquote;
    RefIsTight(ref);
    PrintIsTight(ref.name);
    var raw := ref.Print();
    forall j | 0 <= j < |raw| ensures !OccursAt(raw, ".", j) {
      assert IsIdentChar(raw[j]) && raw[j..][0] == raw[j];
    }
    FindIsFirst(raw, ".", 0, |raw|);
  }

  lemma QuotedNameSplits(ref: TableRef)
    requires ref.Valid() && ref.schema.None? && ref.name.Quoted? && ref.name.text != "."
    ensures SplitQualified(ref.Print()) == ref.Meaning()
  {
    hide Strip, DropTrailing, Find, Unquote, SplitQualified, OccursAt, Tight;
    RefIsTight(ref);
    PrintIsTight(ref.name);
    var raw, t := ref.Print(), ref.name.text;
    assert raw == "\"" + t + "\"";
    forall m | 1 <= m <= |t| ensures raw[m] == t[m - 1] && raw[m] != '"' {
      assert t[m - 1] in t;
    }
    assert |t| == 1 ==> t == [raw[1]];
    forall j | 0 <= j < |raw| ensures !OccursAt(raw, QUOTED_DOT, j) {
      OccursNeedsQuotes(raw, j);
    }
    OccursNeedsQuotes(raw, |raw|);
    FindIsFirst(raw, QUOTED_DOT, 0, |raw|);
    QuotedSplitsAt(raw, |raw|);
  }

  /** A name alone is understood unless it is a quoted lone dot. */
  lemma BareNameSplits(ref: TableRef)
    requires ref.Valid() && ref.schema.None?
    ensures SplitQualified(ref.Print()) == ref.Meaning() <==> ref.name != Quoted(".")
  {
    hide DropTrailing, Find, SplitQualified, OccursAt, Tight;
    if ref.name.Plain? {
      PlainNameSplits(ref);
    } else if ref.name.text != "." {
      QuotedNameSplits(ref);
    } else {
      RefIsTight(ref);
      assert ref.Print() == QUOTED_DOT;
      OccursNeedsQuotes(QUOTED_DOT, 0);
      FindIsFirst(QUOTED_DOT, QUOTED_DOT, 0, 0);
      QuotedSplitsAt(QUOTED_DOT, 0);
      assert QUOTED_DOT[..0] + "\"" == "\"" && "\"" + QUOTED_DOT[3..] == "\"";
      assert Strip("\"") == "\"";
    }
  }

  /** A printed reference is read back exactly when it is of a supported form. */
  lemma RefRoundTrip(ref: TableRef)
    requires ref.Valid()
    ensures SplitQualified(ref.Print()) == ref.Meaning() <==> ref.Supported()
  {
    match ref.schema {
      case None => BareNameSplits(ref);
      case Some(s) =>
        if s.Plain? {
          PlainSchemaSplits(ref);
        } else if ref.name.Quoted? {
          if s.text == "." {
            DotSchemaFails(ref);
          } else {
            QuotedSchemaSplits(ref);
          }
        } else {
          MixedRefFails(ref);
        }
    }
  }

  // ---------------------------------------------------------------------------
  // Lists of table references
  // ---------------------------------------------------------------------------

  lemma {:induction false} ScanAppend(st: Scan, a: string, b: string, sep: char)
    ensures ScanAll(st, a + b) == ScanAll(ScanAll(st, a), b)
    ensures Whole(st, a + b, sep) <==> Whole(st, a, sep) && Whole(ScanAll(st, a), b, sep)
    decreases |a|
  {
    if a == "" {
      assert a + b == b;
    } else {
      assert (a + b)[0] == a[0] && (a + b)[1..] == a[1..] + b;
      ScanAppend(Next(st, a[0]), a[1..], b, sep);
    }
  }

  /** The piece closes what it opens and holds no top-level separator. */
  predicate Closed(text: string, sep: char) {
    Whole(START, text, sep) && ScanAll(START, text) == START
  }

  lemma {:induction false} CalmTextIsClosed(text: string, sep: char)
    requires forall i :: 0 <= i < |text| ==> !Special(text[i]) && text[i] != sep
    ensures Closed(text, sep)
  {
    if text != "" {
      CalmTextIsClosed(text[1..], sep);
    }
  }

  lemma {:induction false} QuotedTextStaysQuoted(text: string, sep: char)
    requires forall i :: 0 <= i < |text| ==> text[i] != '"'
    ensures ScanAll(Scan(0, false, true), text) == Scan(0, false, true)
    ensures Whole(Scan(0, false, true), text, sep)
  {
    if text != "" {
      QuotedTextStaysQuoted(text[1..], sep);
    }
  }

  lemma ClosedAppend(a: string, b: string, sep: char)
    requires Closed(a, sep) && Closed(b, sep)
    ensures Closed(a + b, sep)
  {
    ScanAppend(START, a, b, sep);
  }

  /** An identifier is closed whatever separators and parentheses its quotes hold. */
  lemma IdentIsClosed(id: Ident)
    requires id.Valid()
    ensures Closed(id.Print(), ',')
  {
    if id.Plain? {
      CalmTextIsClosed(id.text, ',');
    } else {
      var open := Scan(0, false, true);
      forall i | 0 <= i < |id.text| ensures id.text[i] != '"' {
        assert id.text[i] in id.text;
      }
      QuotedTextStaysQuoted(id.text, ',');
      OneQuote(START, ',');
      OneQuote(open, ',');
      ScanAppend(open, id.text, "\"", ',');
      ScanAppend(START, "\"", id.text + "\"", ',');
      assert id.Print() == "\"" + (id.text + "\"");
    }
  }

  lemma OneQuote(st: Scan, sep: char)
    requires !st.single
    ensures ScanAll(st, "\"") == st.(double := !st.double) && Whole(st, "\"", sep)
  {
    assert "\""[0] == '"' && "\""[1..] == "";
  }

  lemma RefIsClosed(ref: TableRef)
    requires ref.Valid()
    ensures Closed(ref.Print(), ',')
  {
    IdentIsClosed(ref.name);
    if ref.schema.Some? {
      IdentIsClosed(ref.schema.value);
      CalmTextIsClosed(".", ',');
      ClosedAppend(ref.schema.value.Print(), ".", ',');
      ClosedAppend(ref.schema.value.Print() + ".", ref.name.Print(), ',');
    }
  }

  /** A reference as it stands in a statement, with white space around it. */
  datatype Written = Written(before: string, ref: TableRef, after: string) {
    predicate Valid() {
      Blank(before) && Blank(after) && ref.Valid()
    }

    function Print(): string {
      before + ref.Print() + after
    }
  }

  lemma WrittenIsClosed(w: Written)
    requires w.Valid()
    ensures Closed(w.Print(), ',') && Strip(w.Print()) == w.ref.Print() != ""
  {
    CalmTextIsClosed(w.before, ',');
    CalmTextIsClosed(w.after, ',');
    RefIsClosed(w.ref);
    ClosedAppend(w.before, w.ref.Print(), ',');
    ClosedAppend(w.before + w.ref.Print(), w.after, ',');
    RefIsTight(w.ref);
    StripPadding(w.before, w.ref.Print(), w.after);
  }

  function Prints(ws: seq<Written>): seq<string> {
    if ws == [] then [] else [ws[0].Print()] + Prints(ws[1..])
  }

  function Meanings(ws: seq<Written>): seq<(string, string)> {
    if ws == [] then [] else [ws[0].ref.Meaning()] + Meanings(ws[1..])
  }

  function SplitEach(names: seq<string>): seq<(string, string)> {
    if names == [] then [] else [SplitQualified(names[0])] + SplitEach(names[1..])
  }

  /** The tables a DROP TABLE name list refers to. */
  function DroppedTables(names: string): seq<(string, string)> {
    SplitEach(TopLevelSplit(names, ','))
  }

  lemma {:induction false} WrittenDecompose(ws: seq<Written>)
    requires ws != [] && forall w :: w in ws ==> w.Valid()
    ensures Decomposition(START, Prints(ws), ',')
  {
    WrittenIsClosed(ws[0]);
    if |ws| > 1 {
      WrittenDecompose(ws[1..]);
      assert Prints(ws)[1..] == Prints(ws[1..]);
    } else {
      assert Prints(ws)[1..] == [];
    }
  }

  lemma {:induction false} WrittenAreRead(ws: seq<Written>)
    requires forall w :: w in ws ==> w.Valid()
    ensures SplitEach(Tidy(Prints(ws))) == Meanings(ws) <==> forall w :: w in ws ==> w.ref.Supported()
  {
    if ws != [] {
      WrittenIsClosed(ws[0]);
      RefRoundTrip(ws[0].ref);
      WrittenAreRead(ws[1..]);
      FirstRead(ws);
      assert forall w :: w in ws <==> w == ws[0] || w in ws[1..];
    }
  }

  lemma FirstRead(ws: seq<Written>)
    requires ws != [] && Strip(ws[0].Print()) == ws[0].ref.Print() != ""
    ensures SplitEach(Tidy(Prints(ws))) == Meanings(ws) <==>
            && SplitQualified(ws[0].ref.Print()) == ws[0].ref.Meaning()
            && SplitEach(Tidy(Prints(ws[1..]))) == Meanings(ws[1..])
  {
    hide SplitQualified, Strip;
    var rest := Tidy(Prints(ws[1..]));
    assert Prints(ws)[1..] == Prints(ws[1..]);
    assert Tidy(Prints(ws)) == [ws[0].ref.Print()] + rest;
    assert ([ws[0].ref.Print()] + rest)[1..] == rest;
    var read := SplitEach(Tidy(Prints(ws)));
    assert read == [SplitQualified(ws[0].ref.Print())] + SplitEach(rest);
    assert read[0] == SplitQualified(ws[0].ref.Print()) && read[1..] == SplitEach(rest);
    assert Meanings(ws)[0] == ws[0].ref.Meaning() && Meanings(ws)[1..] == Meanings(ws[1..]);
  }

  /**
   * A comma-separated list of references, however spaced and whatever its quotes hold, is read back reference by
   * reference exactly when all of them are of a supported form.
   */
  lemma TableListRoundTrip(ws: seq<Written>)
    requires ws != [] && forall w :: w in ws ==> w.Valid()
    ensures DroppedTables(Join(Prints(ws), ',')) == Meanings(ws) <==> forall w :: w in ws ==> w.ref.Supported()
  {
    hide SplitQualified, Pieces, Strip, Tidy;
    WrittenDecompose(ws);
    SplitInvertsJoin(Prints(ws), ',');
    WrittenAreRead(ws);
  }
}
