/** The hash-chained audit log. The digest is a parameter: nothing is assumed of it but that it is a function. */
module AuditLog {
  import opened Prelude

  /** Everything of an event that is hashed: all its fields but its own hash. */
  datatype Payload = Payload(
    action: string,
    target: string,
    environment: string,
    outcome: string,
    actor: string,
    timestamp: string,
    details: map<string, Value>,
    prevHash: string)

  datatype Event = Event(payload: Payload, eventHash: string)

  type Digest = Payload -> string

  const GENESIS: string := "0000000000000000000000000000000000000000000000000000000000000000"

  /** The hash the next event has to chain from. */
  function Tip(log: seq<Event>): string {
    if log == [] then GENESIS else log[|log| - 1].eventHash
  }

  /** Event `i` chains from the one before it and carries the digest of its own payload. */
  ghost predicate Linked(digest: Digest, log: seq<Event>, i: nat)
    requires i < |log|
  {
    log[i].payload.prevHash == Tip(log[..i]) && digest(log[i].payload) == log[i].eventHash
  }

  ghost predicate Accepted(digest: Digest, log: seq<Event>) {
    forall i :: 0 <= i < |log| ==> Linked(digest, log, i)
  }

  datatype Problem = PrevMismatch(line: nat) | HashMismatch(line: nat)

  /** The problems of the event on line `n + 1`, given the hash it should chain from. */
  function ProblemsAt(digest: Digest, e: Event, expected: string, n: nat): seq<Problem> {
    (if e.payload.prevHash != expected then [PrevMismatch(n + 1)] else [])
    + (if digest(e.payload) != e.eventHash then [HashMismatch(n + 1)] else [])
  }

  function Problems(digest: Digest, log: seq<Event>): seq<Problem> {
    if log == [] then
      []
    else
      var n := |log| - 1;
      Problems(digest, log[..n]) + ProblemsAt(digest, log[n], Tip(log[..n]), n)
  }

  lemma ProblemsNext(digest: Digest, log: seq<Event>, n: nat)
    requires n < |log|
    ensures Problems(digest, log[..n + 1]) == Problems(digest, log[..n]) + ProblemsAt(digest, log[n], Tip(log[..n]), n)
    ensures Tip(log[..n + 1]) == log[n].eventHash
  {
    assert log[..n + 1][..n] == log[..n];
  }

  lemma ProblemsNone(digest: Digest)
    ensures Problems(digest, []) == [] && Tip([]) == GENESIS
  {
  }

  lemma AcceptedInit(digest: Digest, log: seq<Event>)
    requires log != []
    ensures Accepted(digest, log) <==> Accepted(digest, log[..|log| - 1]) && Linked(digest, log, |log| - 1)
  {
    var n := |log| - 1;
    forall i | 0 <= i < n ensures Linked(digest, log[..n], i) <==> Linked(digest, log, i) {
      assert log[..n][..i] == log[..i];
    }
    if Accepted(digest, log) {
      forall i | 0 <= i < n ensures Linked(digest, log[..n], i) {
        assert Linked(digest, log, i);
      }
    }
    if Accepted(digest, log[..n]) && Linked(digest, log, n) {
      forall i | 0 <= i < |log| ensures Linked(digest, log, i) {
        assert i < n ==> Linked(digest, log[..n], i);
      }
    }
  }

  /** No problem is reported exactly for the accepted logs. */
  lemma {:induction false} NoProblemsMeansAccepted(digest: Digest, log: seq<Event>)
    ensures Problems(digest, log) == [] <==> Accepted(digest, log)
  {
    if log != [] {
      NoProblemsMeansAccepted(digest, log[..|log| - 1]);
      AcceptedInit(digest, log);
    }
  }

  /** The problems, line by line: the event does not carry the hash of the one before, or not its own digest. */
  lemma {:induction false} ProblemsAre(digest: Digest, log: seq<Event>, line: nat)
    ensures PrevMismatch(line) in Problems(digest, log) <==>
            && 1 <= line <= |log|
            && log[line - 1].payload.prevHash != (if line == 1 then GENESIS else log[line - 2].eventHash)
    ensures HashMismatch(line) in Problems(digest, log) <==>
            1 <= line <= |log| && digest(log[line - 1].payload) != log[line - 1].eventHash
  {
    if log != [] {
      var n := |log| - 1;
      ProblemsAre(digest, log[..n], line);
      assert Tip(log[..n]) == if n == 0 then GENESIS else log[n - 1].eventHash;
    }
  }

  /** Dropping a suffix goes unnoticed. */
  lemma {:induction false} PrefixAccepted(digest: Digest, log: seq<Event>, n: nat)
    requires Accepted(digest, log) && n <= |log|
    ensures Accepted(digest, log[..n])
    decreases |log|
  {
    if n < |log| {
      AcceptedInit(digest, log);
      PrefixAccepted(digest, log[..|log| - 1], n);
      assert log[..|log| - 1][..n] == log[..n];
    } else {
      assert log[..n] == log;
    }
  }

  /** Two different payloads, one from each log, with the same digest. */
  ghost predicate Collision(digest: Digest, a: seq<Event>, b: seq<Event>) {
    exists i, j :: 0 <= i < |a| && 0 <= j < |b|
                && a[i].payload != b[j].payload && digest(a[i].payload) == digest(b[j].payload)
  }

  /** A payload of the log whose digest is the genesis hash. */
  ghost predicate GenesisPreimage(digest: Digest, log: seq<Event>) {
    exists i :: 0 <= i < |log| && digest(log[i].payload) == GENESIS
  }

  /** The digest is broken on payloads these logs exhibit. */
  ghost predicate Broken(digest: Digest, a: seq<Event>, b: seq<Event>) {
    Collision(digest, a, b) || GenesisPreimage(digest, a) || GenesisPreimage(digest, b)
  }

  lemma BrokenInit(digest: Digest, a: seq<Event>, b: seq<Event>)
    requires a != [] && b != [] && Broken(digest, a[..|a| - 1], b[..|b| - 1])
    ensures Broken(digest, a, b)
  {
    var m, n := |a| - 1, |b| - 1;
    if Collision(digest, a[..m], b[..n]) {
      var i, j :| 0 <= i < m && 0 <= j < n
               && a[..m][i].payload != b[..n][j].payload && digest(a[..m][i].payload) == digest(b[..n][j].payload);
      assert a[..m][i] == a[i] && b[..n][j] == b[j];
    } else if GenesisPreimage(digest, a[..m]) {
      var i :| 0 <= i < m && digest(a[..m][i].payload) == GENESIS;
      assert a[i] == a[..m][i];
    } else {
      var j :| 0 <= j < n && digest(b[..n][j].payload) == GENESIS;
      assert b[j] == b[..n][j];
    }
  }

  /** The last hash determines the whole accepted log, unless the digest is broken on the two logs themselves. */
  lemma {:induction false} TipDeterminesLog(digest: Digest, a: seq<Event>, b: seq<Event>)
    requires Accepted(digest, a) && Accepted(digest, b) && Tip(a) == Tip(b)
    ensures a == b || Broken(digest, a, b)
    decreases |a|
  {
    if a != [] && b != [] {
      var m, n := |a| - 1, |b| - 1;
      AcceptedInit(digest, a);
      AcceptedInit(digest, b);
      if a[m].payload == b[n].payload {
        TipDeterminesLog(digest, a[..m], b[..n]);
        if a[..m] == b[..n] {
          assert a == a[..m] + [a[m]] && b == b[..n] + [b[n]];
        } else {
          BrokenInit(digest, a, b);
        }
      } else {
        assert digest(a[m].payload) == digest(b[n].payload);
      }
    } else if a != [] {
      AcceptedInit(digest, a);
      assert digest(a[|a| - 1].payload) == GENESIS;
    } else if b != [] {
      AcceptedInit(digest, b);
      assert digest(b[|b| - 1].payload) == GENESIS;
    }
  }

  // ---------------------------------------------------------------------------
  // Tampering
  // ---------------------------------------------------------------------------

  /**
   * Rewriting the content of one event, its two hashes left alone, is reported as exactly one problem, on its own
   * line, unless the new content has the digest of the old.
   */
  lemma {:induction false} EditIsPinpointed(digest: Digest, log: seq<Event>, i: nat, p: Payload)
    requires Accepted(digest, log) && i < |log|
    requires p.prevHash == log[i].payload.prevHash
    ensures Problems(digest, log[i := log[i].(payload := p)]) ==
            if digest(p) == digest(log[i].payload) then [] else [HashMismatch(i + 1)]
    decreases |log|
  {
    hide Accepted, Tip, Problems;
    var edited := log[i := log[i].(payload := p)];
    var n := |log| - 1;
    AcceptedInit(digest, log);
    EditInit(log, i, p);
    ProblemsNext(digest, edited, n);
    assert edited[..n + 1] == edited;
    if i == n {
      NoProblemsMeansAccepted(digest, log[..n]);
    } else {
      EditIsPinpointed(digest, log[..n], i, p);
      assert ProblemsAt(digest, edited[n], Tip(edited[..n]), n) == [];
    }
  }

  lemma EditInit(log: seq<Event>, i: nat, p: Payload)
    requires i < |log|
    ensures var edited, n := log[i := log[i].(payload := p)], |log| - 1;
            && edited[..n] == (if i == n then log[..n] else log[..n][i := log[..n][i].(payload := p)])
            && Tip(edited[..n]) == Tip(log[..n])
            && edited[n] == if i == n then log[n].(payload := p) else log[n]
  {
  }

  /** Removing an event other than the last is reported, unless the digest is broken on the log itself. */
  lemma RemovalIsReported(digest: Digest, log: seq<Event>, i: nat)
    requires Accepted(digest, log) && i + 1 < |log|
    ensures Problems(digest, log[..i] + log[i + 1..]) != [] || Broken(digest, log, log)
  {
    var shorter := log[..i] + log[i + 1..];
    NoProblemsMeansAccepted(digest, shorter);
    if Accepted(digest, shorter) {
      TipDeterminesLog(digest, log, shorter);
      assert |shorter| < |log|;
      assert forall e :: e in shorter ==> e in log;
      BrokenWithin(digest, log, shorter);
    }
  }

  /** A break found among events of one log is a break of that log. */
  lemma BrokenWithin(digest: Digest, log: seq<Event>, other: seq<Event>)
    requires Broken(digest, log, other) && forall e :: e in other ==> e in log
    ensures Broken(digest, log, log)
  {
    if Collision(digest, log, other) {
      var i, j :| 0 <= i < |log| && 0 <= j < |other|
               && log[i].payload != other[j].payload && digest(log[i].payload) == digest(other[j].payload);
      assert other[j] in log;
      var k :| 0 <= k < |log| && log[k] == other[j];
      assert Collision(digest, log, log);
    } else if GenesisPreimage(digest, other) {
      var j :| 0 <= j < |other| && digest(other[j].payload) == GENESIS;
      assert other[j] in log;
      var k :| 0 <= k < |log| && log[k] == other[j];
      assert GenesisPreimage(digest, log);
    }
  }

  // ---------------------------------------------------------------------------
  // The logger
  // ---------------------------------------------------------------------------

  /** One line of the log file. */
  datatype Line = Blank | Entry(event: Event)

  function EventsIn(lines: seq<Line>): seq<Event> {
    if lines == [] then
      []
    else
      var last := lines[|lines| - 1];
      EventsIn(lines[..|lines| - 1]) + (if last.Entry? then [last.event] else [])
  }

  /** Reading goes line by line; blank lines give nothing. */
  lemma EventsNext(lines: seq<Line>, line: Line)
    ensures EventsIn(lines + [line]) == EventsIn(lines) + (if line.Entry? then [line.event] else [])
    ensures EventsIn([]) == []
  {
    assert (lines + [line])[..|lines|] == lines;
  }

  lemma AcceptedAppend(digest: Digest, log: seq<Event>, p: Payload)
    requires Accepted(digest, log) && p.prevHash == Tip(log)
    ensures Accepted(digest, log + [Event(p, digest(p))])
  {
    var more := log + [Event(p, digest(p))];
    assert more[..|log|] == log;
    AcceptedInit(digest, more);
  }

  class AuditLogger {
    const digest: Digest
    var lines: seq<Line>

    constructor (digest: Digest, lines: seq<Line>)
      ensures this.digest == digest && this.lines == lines
    {
      this.digest := digest;
      this.lines := lines;
    }

    function Events(): seq<Event>
      reads this
    {
      EventsIn(lines)
    }

    /** The hash on the last non-blank line. */
    method LastHash() returns (h: string)
      ensures h == Tip(Events())
    {
      var last: Line := Blank;
      for n := 0 to |lines|
        invariant last.Blank? ==> EventsIn(lines[..n]) == []
        invariant last.Entry? ==> EventsIn(lines[..n]) != [] && Tip(EventsIn(lines[..n])) == last.event.eventHash
      {
        assert lines[..n + 1][..n] == lines[..n];
        if lines[n].Entry? {
          last := lines[n];
        }
      }
      assert lines[..|lines|] == lines;
      h := if last.Blank? then GENESIS else last.event.eventHash;
    }

    /** Append one event chained to the last; an accepted log stays accepted. */
    method Record(action: string, target: string, environment: string, outcome: string,
                  actor: string, timestamp: string, details: map<string, Value>) returns (e: Event)
      modifies this
      ensures Events() == old(Events()) + [e]
      ensures e.payload == Payload(action, target, environment, outcome, actor, timestamp, details, Tip(old(Events())))
      ensures e.eventHash == digest(e.payload)
      ensures old(Accepted(digest, Events())) ==> Accepted(digest, Events())
    {
      var prev := LastHash();
      var payload := Payload(action, target, environment, outcome, actor, timestamp, details, prev);
      e := Event(payload, digest(payload));
      assert (lines + [Entry(e)])[..|lines|] == lines;
      if Accepted(digest, Events()) {
        AcceptedAppend(digest, Events(), payload);
      }
      lines := lines + [Entry(e)];
    }

    method ReadAll() returns (events: seq<Event>)
      ensures events == Events()
    {
      events := [];
      for n := 0 to |lines|
        invariant events == EventsIn(lines[..n])
      {
        assert lines[..n + 1][..n] == lines[..n];
        if lines[n].Entry? {
          events := events + [lines[n].event];
        }
      }
      assert lines[..|lines|] == lines;
    }

    /** Recompute every hash; valid exactly for the accepted logs. */
    method VerifyChain() returns (valid: bool, problems: seq<Problem>)
      ensures problems == Problems(digest, Events())
      ensures valid <==> Accepted(digest, Events())
    {
      hide Problems, Tip, Accepted;
      problems := [];
      var expected := GENESIS;
      ProblemsNone(digest);
      var events := ReadAll();
      for n := 0 to |events|
        invariant problems == Problems(digest, events[..n])
        invariant expected == Tip(events[..n])
      {
        var e := events[n];
        ProblemsNext(digest, events, n);
        if e.payload.prevHash != expected {
          problems := problems + [PrevMismatch(n + 1)];
        }
        if digest(e.payload) != e.eventHash {
          problems := problems + [HashMismatch(n + 1)];
        }
        expected := e.eventHash;
      }
      assert events[..|events|] == events;
      NoProblemsMeansAccepted(digest, events);
      valid := |problems| == 0;
    }
  }
}
