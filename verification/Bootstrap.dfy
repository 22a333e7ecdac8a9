/** Bootstrap statements retried over a tunnel that may drop after any part of a script was applied. */
module Bootstrap {
  import opened Prelude

  /** Server objects (databases, extensions, settings, roles) by name, each with its definition. */
  type State = map<string, string>

  datatype Statement =
    | CreateIfAbsent(key: string, definition: string)
    | Assign(key: string, definition: string)
    | Create(key: string, definition: string)

  /** What becomes of one attempt; `applied` statements take effect before it breaks off. */
  datatype Fate =
    | Clean
    | DropAfter(applied: nat)
    | RefuseAfter(applied: nat)
    | RaiseAfter(applied: nat)
    | NoTunnel

  /** How a retried call ends; `Raised` is an error such as a timeout of `psql`, which escapes the retry. */
  datatype Report = NotCalled | Succeeded | TunnelDropped | SqlFailed | Raised | TunnelUnavailable

  /** A plain CREATE of an existing object is the only statement the server itself refuses. */
  predicate Refuses(st: Statement, s: State) {
    st.Create? && st.key in s
  }

  function Apply(st: Statement, s: State): State {
    match st
    case CreateIfAbsent(k, d) => if k in s then s else s[k := d]
    case Assign(k, d) => s[k := d]
    case Create(k, d) => if k in s then s else s[k := d]
  }

  /** The state after running the whole script without interruption. */
  function Run(script: seq<Statement>, s: State): State {
    if script == [] then s
    else Apply(script[|script| - 1], Run(script[..|script| - 1], s))
  }

  predicate Repeatable(script: seq<Statement>) {
    forall i :: 0 <= i < |script| ==> !script[i].Create?
  }

  function Min(a: nat, b: nat): nat {
    if a <= b then a else b
  }

  /** One attempt on an open tunnel: the new state and what the client sees. */
  function Attempt(script: seq<Statement>, s: State, fate: Fate): (State, Report)
    requires Repeatable(script) || |script| == 1
  {
    match fate
    case NoTunnel => (s, TunnelUnavailable)
    case DropAfter(n) =>
      if n > 0 && !Repeatable(script) && Refuses(script[0], s) then (s, SqlFailed)
      else (Run(script[..Min(n, |script|)], s), TunnelDropped)
    case RefuseAfter(n) => (Run(script[..Min(n, |script|)], s), SqlFailed)
    case RaiseAfter(n) => (Run(script[..Min(n, |script|)], s), Raised)
    case Clean =>
      if !Repeatable(script) && Refuses(script[0], s) then (s, SqlFailed) else (Run(script, s), Succeeded)
  }

  datatype Outcome = Outcome(state: State, report: Report, calls: nat, checks: nat)

  /** Retry while the tunnel drops, at most `attempts` times; attempt `i` meets `fates[i]`. */
  function Retry(script: seq<Statement>, s: State, fates: seq<Fate>, attempts: nat): (r: Outcome)
    requires Repeatable(script) || |script| == 1
    requires attempts <= |fates|
    ensures r.calls <= attempts
    decreases attempts
  {
    if attempts == 0 then
      Outcome(s, NotCalled, 0, 0)
    else
      var (s', report) := Attempt(script, s, fates[0]);
      if report == TunnelUnavailable then
        Outcome(s, TunnelUnavailable, 0, 1)
      else if report != TunnelDropped || attempts == 1 then
        Outcome(s', report, 1, 1)
      else
        var rest := Retry(script, s', fates[1..], attempts - 1);
        Outcome(rest.state, rest.report, rest.calls + 1, rest.checks + 1)
  }

  lemma NeverCalled(script: seq<Statement>, s: State, fates: seq<Fate>)
    requires Repeatable(script) || |script| == 1
    ensures Retry(script, s, fates, 0) == Outcome(s, NotCalled, 0, 0)
  {
  }

  /** From attempt `i` on, one call and what follows it. */
  lemma RetryStep(script: seq<Statement>, s: State, fates: seq<Fate>, i: nat, attempts: nat)
    requires (Repeatable(script) || |script| == 1) && i < attempts <= |fates|
    ensures var (s', report) := Attempt(script, s, fates[i]);
            Retry(script, s, fates[i..], attempts - i) ==
            if fates[i].NoTunnel? then
              Outcome(s, TunnelUnavailable, 0, 1)
            else if report != TunnelDropped || attempts == i + 1 then
              Outcome(s', report, 1, 1)
            else
              var rest := Retry(script, s', fates[i + 1..], attempts - i - 1);
              Outcome(rest.state, rest.report, rest.calls + 1, rest.checks + 1)
  {
    assert fates[i..][0] == fates[i] && fates[i..][1..] == fates[i + 1..];
  }

  // ---------------------------------------------------------------------------
  // Running a repeatable script again completes it
  // ---------------------------------------------------------------------------

  function Lookup(s: State, k: string): Option<string> {
    if k in s then Some(s[k]) else None
  }

  /** The fate of one key under a script. */
  function Final(script: seq<Statement>, k: string, o: Option<string>): Option<string> {
    if script == [] then
      o
    else
      var st := script[|script| - 1];
      var before := Final(script[..|script| - 1], k, o);
      if st.key != k then before
      else if st.Assign? || before.None? then Some(st.definition)
      else before
  }

  lemma {:induction false} RunAt(script: seq<Statement>, s: State, k: string)
    ensures Lookup(Run(script, s), k) == Final(script, k, Lookup(s, k))
  {
    if script != [] {
      RunAt(script[..|script| - 1], s, k);
    }
  }

  lemma {:induction false} FinalAppend(a: seq<Statement>, b: seq<Statement>, k: string, o: Option<string>)
    ensures Final(a + b, k, o) == Final(b, k, Final(a, k, o))
  {
    if b == [] {
      assert a + b == a;
    } else {
      var n := |b| - 1;
      assert (a + b)[..|a| + n] == a + b[..n];
      FinalAppend(a, b[..n], k, o);
    }
  }

  predicate Assigns(script: seq<Statement>, k: string) {
    exists i :: 0 <= i < |script| && script[i].Assign? && script[i].key == k
  }

  lemma AssignsInit(script: seq<Statement>, k: string)
    requires script != []
    ensures Assigns(script, k) <==>
            var n := |script| - 1; Assigns(script[..n], k) || (script[n].Assign? && script[n].key == k)
  {
    var n := |script| - 1;
    if Assigns(script[..n], k) {
      var i :| 0 <= i < n && script[..n][i].Assign? && script[..n][i].key == k;
      assert script[i] == script[..n][i];
    }
    if Assigns(script, k) {
      var i :| 0 <= i < |script| && script[i].Assign? && script[i].key == k;
      assert i < n ==> script[..n][i] == script[i];
    }
  }

  /** An assigned key ends up the same whatever it was; any other key that is present stays as it is. */
  lemma {:induction false} FinalForgets(script: seq<Statement>, k: string, o: Option<string>, p: Option<string>)
    ensures Assigns(script, k) ==> Final(script, k, o) == Final(script, k, p)
    ensures Assigns(script, k) ==> Final(script, k, o).Some?
    ensures !Assigns(script, k) && o.Some? ==> Final(script, k, o) == o
  {
    if script != [] {
      FinalForgets(script[..|script| - 1], k, o, p);
      AssignsInit(script, k);
    }
  }

  lemma FinalAgain(script: seq<Statement>, n: nat, k: string, o: Option<string>)
    requires n <= |script|
    ensures Final(script, k, Final(script[..n], k, o)) == Final(script, k, o)
  {
    var once := Final(script[..n], k, o);
    FinalForgets(script, k, once, o);
    if !Assigns(script, k) {
      assert !Assigns(script[n..], k);
      assert script == script[..n] + script[n..];
      FinalAppend(script[..n], script[n..], k, o);
      FinalForgets(script[n..], k, once, o);
      if once.None? {
        FinalForgets(script[..n], k, o, o);
        assert o.None? by {
          assert !Assigns(script[..n], k);
        }
      }
    }
  }

  lemma SameState(s: State, t: State)
    requires forall k :: Lookup(s, k) == Lookup(t, k)
    ensures s == t
  {
    assert forall k :: k in s <==> Lookup(s, k).Some?;
    assert forall k :: k in t <==> Lookup(t, k).Some?;
    assert s.Keys == t.Keys;
    forall k | k in s ensures s[k] == t[k] {
      assert Lookup(s, k) == Lookup(t, k);
    }
  }

  /** After any applied prefix, a full rerun ends where one uninterrupted run would have. */
  lemma RerunCompletes(script: seq<Statement>, n: nat, s: State)
    requires n <= |script|
    ensures Run(script, Run(script[..n], s)) == Run(script, s)
  {
    forall k ensures Lookup(Run(script, Run(script[..n], s)), k) == Lookup(Run(script, s), k) {
      RunAt(script, Run(script[..n], s), k);
      RunAt(script[..n], s, k);
      RunAt(script, s, k);
      FinalAgain(script, n, k, Lookup(s, k));
    }
    SameState(Run(script, Run(script[..n], s)), Run(script, s));
  }

  lemma {:induction false} RunAppend(a: seq<Statement>, b: seq<Statement>, s: State)
    ensures Run(a + b, s) == Run(b, Run(a, s))
  {
    if b == [] {
      assert a + b == a;
    } else {
      var n := |b| - 1;
      assert (a + b)[..|a| + n] == a + b[..n];
      RunAppend(a, b[..n], s);
    }
  }

  // ---------------------------------------------------------------------------
  // What a retried script guarantees
  // ---------------------------------------------------------------------------

  /**
   * A reported success means the state of one clean run; whatever is reported, a further clean run still gets
   * there, so nothing the drops left behind is in the way.
   */
  lemma {:induction false} RetryRefinesOneRun(script: seq<Statement>, s: State, fates: seq<Fate>, attempts: nat)
    requires Repeatable(script) && attempts <= |fates|
    ensures var r := Retry(script, s, fates, attempts);
            && (r.report == Succeeded ==> r.state == Run(script, s))
            && Run(script, r.state) == Run(script, s)
    decreases attempts
  {
    if attempts > 0 {
      var (s', report) := Attempt(script, s, fates[0]);
      AttemptLeavesPrefix(script, s, fates[0]);
      if report == TunnelDropped && attempts > 1 {
        RetryRefinesOneRun(script, s', fates[1..], attempts - 1);
      }
    }
  }

  lemma AttemptLeavesPrefix(script: seq<Statement>, s: State, fate: Fate)
    requires Repeatable(script)
    ensures var (s', report) := Attempt(script, s, fate);
            && Run(script, s') == Run(script, s)
            && (report == Succeeded ==> s' == Run(script, s))
  {
    assert script[..|script|] == script;
    assert script[..0] == [];
    match fate {
      case DropAfter(n) => RerunCompletes(script, Min(n, |script|), s);
      case RefuseAfter(n) => RerunCompletes(script, Min(n, |script|), s);
      case RaiseAfter(n) => RerunCompletes(script, Min(n, |script|), s);
      case Clean => RerunCompletes(script, |script|, s);
      case NoTunnel =>
    }
  }

  /**
   * The tunnel is checked once before each call, at most `attempts` calls are made, every call but the last ended
   * in a dropped tunnel, and only such an end with attempts left leads to another call.
   */
  lemma {:induction false} RetryDiscipline(script: seq<Statement>, s: State, fates: seq<Fate>, attempts: nat)
    requires (Repeatable(script) || |script| == 1) && attempts <= |fates|
    ensures var r := Retry(script, s, fates, attempts);
            && r.checks == r.calls + (if r.report == TunnelUnavailable then 1 else 0)
            && (forall i :: 0 <= i < r.calls - 1 ==> fates[i].DropAfter?)
            && (r.report == TunnelDropped ==> r.calls == attempts)
            && (r.report == TunnelUnavailable ==> forall i :: 0 <= i < r.calls ==> fates[i].DropAfter?)
            && (r.report == NotCalled <==> attempts == 0)
    decreases attempts
  {
    if attempts > 0 {
      var (s', report) := Attempt(script, s, fates[0]);
      if report == TunnelDropped && attempts > 1 {
        RetryDiscipline(script, s', fates[1..], attempts - 1);
        var rest := Retry(script, s', fates[1..], attempts - 1);
        assert forall i :: 0 < i < |fates| ==> fates[i] == fates[1..][i - 1];
      }
    }
  }

  // ---------------------------------------------------------------------------
  // The plain CREATE DATABASE
  // ---------------------------------------------------------------------------

  /** The fate lets a statement take effect although the client is not told it succeeded. */
  predicate SilentlyApplies(fate: Fate) {
    (fate.DropAfter? || fate.RefuseAfter? || fate.RaiseAfter?) && fate.applied > 0
  }

  /** The first attempt that has an effect has it silently: all before it dropped before the statement was applied. */
  ghost predicate FirstEffectIsSilent(fates: seq<Fate>, attempts: nat)
    requires attempts <= |fates|
  {
    exists i :: 0 <= i < attempts && SilentlyApplies(fates[i]) && OnlyDrops(fates, i)
  }

  predicate OnlyDrops(fates: seq<Fate>, n: nat)
    requires n <= |fates|
  {
    forall j :: 0 <= j < n ==> fates[j] == DropAfter(0)
  }

  lemma FirstEffectShift(fates: seq<Fate>, attempts: nat)
    requires 0 < attempts <= |fates|
    ensures FirstEffectIsSilent(fates, attempts) <==>
            || SilentlyApplies(fates[0])
            || (fates[0] == DropAfter(0) && FirstEffectIsSilent(fates[1..], attempts - 1))
  {
    if SilentlyApplies(fates[0]) {
      assert OnlyDrops(fates, 0);
    } else if i :| 0 <= i < attempts && SilentlyApplies(fates[i]) && OnlyDrops(fates, i) {
      assert SilentlyApplies(fates[1..][i - 1]) && OnlyDrops(fates[1..], i - 1);
    }
    if fates[0] == DropAfter(0) && FirstEffectIsSilent(fates[1..], attempts - 1) {
      var i :| 0 <= i < attempts - 1 && SilentlyApplies(fates[1..][i]) && OnlyDrops(fates[1..], i);
      assert forall j :: 0 < j < i + 1 ==> fates[j] == fates[1..][j - 1];
      assert SilentlyApplies(fates[i + 1]) && OnlyDrops(fates, i + 1);
    }
  }

  /**
   * For a plain CREATE of an absent object a reported success is true. The report is wrong - the object exists and the
   * caller is told the statement failed - exactly when the first attempt to take effect broke off after it did.
   */
  lemma {:induction false} CreateReportIsExact(k: string, d: string, s: State, fates: seq<Fate>, attempts: nat)
    requires k !in s && attempts <= |fates|
    ensures var r := Retry([Create(k, d)], s, fates, attempts);
            && (r.report == Succeeded ==> r.state == s[k := d])
            && r.state == (if k in r.state then s[k := d] else s)
            && (k in r.state && r.report != Succeeded <==> FirstEffectIsSilent(fates, attempts))
    decreases attempts
  {
    if attempts > 0 {
      var (s', report) := Attempt([Create(k, d)], s, fates[0]);
      OneStatement(Create(k, d), s, fates[0]);
      FirstEffectShift(fates, attempts);
      if report == TunnelDropped && attempts > 1 {
        if k in s' {
          AlreadyThere(k, d, s', fates[1..], attempts - 1);
        } else {
          CreateReportIsExact(k, d, s', fates[1..], attempts - 1);
        }
      }
    }
  }

  /** The three ways one attempt at a single statement can leave the state. */
  lemma OneStatement(st: Statement, s: State, fate: Fate)
    ensures var (s', report) := Attempt([st], s, fate);
            && s' == (if fate.Clean? || SilentlyApplies(fate) then Apply(st, s) else s)
            && (report == Succeeded ==> fate.Clean? && !Refuses(st, s))
            && (report == TunnelDropped ==> fate.DropAfter?)
            && (fate.Clean? && !Refuses(st, s) ==> report == Succeeded)
  {
    assert [st][..0] == [] && [st][..1] == [st];
    assert Run([st], s) == Apply(st, s);
  }

  /** Creating what exists changes nothing and never succeeds. */
  lemma {:induction false} AlreadyThere(k: string, d: string, s: State, fates: seq<Fate>, attempts: nat)
    requires k in s && attempts <= |fates|
    ensures var r := Retry([Create(k, d)], s, fates, attempts); r.state == s && r.report != Succeeded
    decreases attempts
  {
    if attempts > 0 {
      var (s', report) := Attempt([Create(k, d)], s, fates[0]);
      OneStatement(Create(k, d), s, fates[0]);
      if report == TunnelDropped && attempts > 1 {
        AlreadyThere(k, d, s', fates[1..], attempts - 1);
      }
    }
  }

  /** One drop after the effect is enough: the database exists and its creation is reported as failed. */
  lemma DroppedCreateLooksFailed()
    ensures var r := Retry([Create("orders", "")], map[], [DropAfter(1), Clean, Clean, Clean], 4);
            r.report == SqlFailed && r.state == map["orders" := ""] && r.calls == 2
  {
    var script := [Create("orders", "")];
    assert script[..1] == script;
    assert Run(script, map[]) == map["orders" := ""];
  }

  // ---------------------------------------------------------------------------
  // The server and the whole bootstrap
  // ---------------------------------------------------------------------------

  const ATTEMPTS: nat := 4

  /** Over a tunnel that drops every time a repeatable script is tried four times and no more. */
  lemma FourDrops(script: seq<Statement>, s: State, fates: seq<Fate>)
    requires Repeatable(script) && |fates| >= 4 && forall i :: 0 <= i < 4 ==> fates[i].DropAfter?
    ensures var r := Retry(script, s, fates, ATTEMPTS); r.report == TunnelDropped && r.calls == 4 && r.checks == 4
  {
    hide Repeatable, Run;
    assert Retry(script, s, fates, 4).calls == 1 + Retry(script, Attempt(script, s, fates[0]).0, fates[1..], 3).calls;
    assert forall i :: 0 <= i < 3 ==> fates[1..][i] == fates[i + 1];
    assert forall i :: 0 <= i < 2 ==> fates[1..][1..][i] == fates[i + 2];
    assert fates[1..][1..][1..][0] == fates[3];
  }

  datatype Stage = QueryStage | CreateStage | ExtensionStage | SettingsStage | RolesStage

  datatype BootstrapError = Failed(stage: Stage) | TunnelDown(stage: Stage) | Escaped(stage: Stage)

  /** How a stage that must succeed ends. */
  function ErrorOf(report: Report, stage: Stage): BootstrapError {
    match report
    case TunnelUnavailable => TunnelDown(stage)
    case Raised => Escaped(stage)
    case _ => Failed(stage)
  }

  /** The statements of one request. */
  datatype Plan = Plan(database: Statement, extensions: seq<Statement>, settings: seq<Statement>, roles: seq<Statement>) {
    ghost predicate Valid() {
      && database.Create?
      && (forall i :: 0 <= i < |extensions| ==> extensions[i].CreateIfAbsent?)
      && Repeatable(settings)
      && Repeatable(roles)
    }
  }

  /** The extensions that are actually there. */
  function Chosen(extensions: seq<Statement>, taken: seq<bool>): seq<Statement>
    requires |extensions| == |taken|
  {
    if extensions == [] then
      []
    else
      var n := |extensions| - 1;
      Chosen(extensions[..n], taken[..n]) + (if taken[n] then [extensions[n]] else [])
  }

  /** An uninterrupted bootstrap in which the extensions of `taken` are available. */
  function CleanBootstrap(plan: Plan, taken: seq<bool>, s: State): State
    requires |plan.extensions| == |taken|
  {
    Run(plan.roles, Run(plan.settings, Run(Chosen(plan.extensions, taken), Apply(plan.database, s))))
  }

  ghost predicate Names(script: seq<Statement>, k: string) {
    exists st :: st in script && st.key == k
  }

  lemma {:induction false} RunNames(script: seq<Statement>, s: State, k: string)
    ensures k in Run(script, s) <==> k in s || Names(script, k)
  {
    if script != [] {
      var n := |script| - 1;
      RunNames(script[..n], s, k);
      assert script == script[..n] + [script[n]];
    }
  }

  lemma {:induction false} ChosenNames(extensions: seq<Statement>, taken: seq<bool>, k: string)
    requires |extensions| == |taken|
    ensures Names(Chosen(extensions, taken), k) <==>
            exists i :: 0 <= i < |taken| && taken[i] && extensions[i].key == k
  {
    if extensions != [] {
      var n := |extensions| - 1;
      ChosenNames(extensions[..n], taken[..n], k);
      var most, last := Chosen(extensions[..n], taken[..n]), if taken[n] then [extensions[n]] else [];
      assert Names(most + last, k) <==> Names(most, k) || (taken[n] && extensions[n].key == k) by {
        assert taken[n] ==> last[0] == extensions[n] && last[0] in last;
      }
    }
  }

  /** What is there after a clean bootstrap: what was there, and everything the plan names but the extensions left out. */
  lemma CleanStateNames(plan: Plan, taken: seq<bool>, s: State, k: string)
    requires |plan.extensions| == |taken|
    ensures k in CleanBootstrap(plan, taken, s) <==>
            || k in s || k == plan.database.key
            || (exists i :: 0 <= i < |taken| && taken[i] && plan.extensions[i].key == k)
            || (exists st :: st in plan.settings && st.key == k)
            || (exists st :: st in plan.roles && st.key == k)
  {
    hide Run, Chosen;
    var base := Apply(plan.database, s);
    var extended := Run(Chosen(plan.extensions, taken), base);
    RunNames(Chosen(plan.extensions, taken), base, k);
    ChosenNames(plan.extensions, taken, k);
    RunNames(plan.settings, extended, k);
    RunNames(plan.roles, Run(plan.settings, extended), k);
  }

  /**
   * What a bootstrap that stopped at a stage left behind: the stages before it are complete, the database is as it was
   * or created, and a settings or roles script that stopped is completed by running it again.
   */
  ghost predicate StoppedAt(plan: Plan, before: State, after: State, stage: Stage) {
    match stage
    case QueryStage => after == before
    case CreateStage => plan.database.key !in before && (after == before || after == Apply(plan.database, before))
    case ExtensionStage =>
      exists taken: seq<bool> :: |taken| <= |plan.extensions|
        && after == Run(Chosen(plan.extensions[..|taken|], taken), Apply(plan.database, before))
    case SettingsStage =>
      exists taken: seq<bool> :: |taken| == |plan.extensions|
        && Run(plan.settings, after)
           == Run(plan.settings, Run(Chosen(plan.extensions, taken), Apply(plan.database, before)))
    case RolesStage =>
      exists taken: seq<bool> :: |taken| == |plan.extensions|
        && Run(plan.roles, after) == CleanBootstrap(plan, taken, before)
  }

  class Server {
    var state: State
    var calls: nat
    var tunnelChecks: nat

    constructor (state: State)
      ensures this.state == state && calls == 0 && tunnelChecks == 0
    {
      this.state, calls, tunnelChecks := state, 0, 0;
    }

    /** Run one script, respawning the tunnel before each attempt and retrying only dropped ones. */
    method Resilient(script: seq<Statement>, fates: seq<Fate>, attempts: nat := ATTEMPTS) returns (last: Report)
      requires (Repeatable(script) || |script| == 1) && attempts <= |fates|
      modifies this
      ensures var r := Retry(script, old(state), fates, attempts);
              && last == r.report
              && state == r.state
              && calls == old(calls) + r.calls
              && tunnelChecks == old(tunnelChecks) + r.checks
    {
      hide Retry, Attempt, Repeatable;
      last := NotCalled;
      var attempt := 0;
      assert fates[0..] == fates;
      NeverCalled(script, state, fates);
      while attempt < attempts
        invariant attempt <= attempts
        invariant attempt > 0 ==> last == TunnelDropped
        invariant attempt == 0 ==> last == NotCalled && state == old(state)
        invariant calls == old(calls) + attempt && tunnelChecks == old(tunnelChecks) + attempt
        invariant attempt < attempts ==>
          var rest := Retry(script, state, fates[attempt..], attempts - attempt);
          Retry(script, old(state), fates, attempts) == Outcome(rest.state, rest.report, rest.calls + attempt, rest.checks + attempt)
        invariant attempt == attempts && attempts > 0 ==>
          Retry(script, old(state), fates, attempts) == Outcome(state, TunnelDropped, attempts, attempts)
      {
        RetryStep(script, state, fates, attempt, attempts);
        tunnelChecks := tunnelChecks + 1;
        if fates[attempt].NoTunnel? {
          return TunnelUnavailable;
        }
        var (after, report) := Attempt(script, state, fates[attempt]);
        state, last, calls := after, report, calls + 1;
        if report != TunnelDropped {
          return;
        }
        attempt := attempt + 1;
      }
    }

    /**
     * Query, create the database if it is missing, then extensions one by one, settings and roles. Success means
     * the state of an uninterrupted bootstrap in which every extension reported as enabled is there; an error names
     * the stage it stopped at.
     */
    method BootstrapPostgres(plan: Plan, queryFates: seq<Fate>, createFates: seq<Fate>,
                             extensionFates: seq<seq<Fate>>, settingsFates: seq<Fate>, rolesFates: seq<Fate>)
      returns (r: Result<seq<bool>, BootstrapError>)
      requires plan.Valid()
      requires |queryFates| >= ATTEMPTS && |createFates| >= ATTEMPTS && |settingsFates| >= ATTEMPTS && |rolesFates| >= ATTEMPTS
      requires |extensionFates| == |plan.extensions|
      requires forall i :: 0 <= i < |extensionFates| ==> |extensionFates[i]| >= ATTEMPTS
      modifies this
      ensures r.Ok? ==>
        exists taken: seq<bool> ::
          && |taken| == |plan.extensions| == |r.value|
          && (forall i :: 0 <= i < |taken| ==> (r.value[i] ==> taken[i]))
          && state == CleanBootstrap(plan, taken, old(state))
      ensures r.Err? ==> StoppedAt(plan, old(state), state, r.error.stage)
      ensures r.Err? && r.error.stage == ExtensionStage ==> !r.error.Failed?
    {
      hide Run, Chosen, Retry;
      var query := Resilient([], queryFates);
      RetryRefinesOneRun([], old(state), queryFates, ATTEMPTS);
      RunNothing(old(state));
      RunNothing(state);
      if query != Succeeded {
        return Err(ErrorOf(query, QueryStage));
      }
      assert state == old(state);
      if plan.database.key !in state {
        var created := Resilient([plan.database], createFates);
        CreateReportIsExact(plan.database.key, plan.database.definition, old(state), createFates, ATTEMPTS);
        if created != Succeeded {
          return Err(ErrorOf(created, CreateStage));
        }
      }
      ghost var base := state;
      assert base == Apply(plan.database, old(state));
      var enabled, taken, stopped := EnableExtensions(plan.extensions, extensionFates);
      if stopped.Some? {
        assert StoppedAt(plan, old(state), state, ExtensionStage);
        return Err(stopped.value);
      }
      ghost var extended := state;
      var settings := Resilient(plan.settings, settingsFates);
      RetryRefinesOneRun(plan.settings, extended, settingsFates, ATTEMPTS);
      if settings != Succeeded {
        assert StoppedAt(plan, old(state), state, SettingsStage);
        return Err(ErrorOf(settings, SettingsStage));
      }
      ghost var configured := state;
      var roles := Resilient(plan.roles, rolesFates);
      RetryRefinesOneRun(plan.roles, configured, rolesFates, ATTEMPTS);
      if roles != Succeeded {
        assert StoppedAt(plan, old(state), state, RolesStage);
        return Err(ErrorOf(roles, RolesStage));
      }
      assert state == CleanBootstrap(plan, taken, old(state));
      r := Ok(enabled);
    }

    /** The extension loop: a statement that fails is skipped; a tunnel that is down or an error ends it. */
    method EnableExtensions(extensions: seq<Statement>, fates: seq<seq<Fate>>)
      returns (enabled: seq<bool>, ghost taken: seq<bool>, stopped: Option<BootstrapError>)
      requires forall i :: 0 <= i < |extensions| ==> extensions[i].CreateIfAbsent?
      requires |fates| == |extensions| && forall i :: 0 <= i < |fates| ==> |fates[i]| >= ATTEMPTS
      modifies this
      ensures |taken| <= |extensions| && state == Run(Chosen(extensions[..|taken|], taken), old(state))
      ensures stopped.Some? ==> stopped.value == TunnelDown(ExtensionStage) || stopped.value == Escaped(ExtensionStage)
      ensures stopped.None? ==>
        && |enabled| == |taken| == |extensions| && extensions[..|taken|] == extensions
        && (forall i :: 0 <= i < |taken| ==> (enabled[i] ==> taken[i]))
    {
      hide Run, Chosen, Retry;
      enabled, taken, stopped := [], [], None;
      ChosenNone(state);
      assert extensions[..0] == [];
      for n := 0 to |extensions|
        invariant |enabled| == |taken| == n
        invariant forall i :: 0 <= i < n ==> (enabled[i] ==> taken[i])
        invariant state == Run(Chosen(extensions[..n], taken), old(state))
      {
        ghost var before := state;
        var outcome := Resilient([extensions[n]], fates[n]);
        SingleStatement(extensions[n], before, fates[n], ATTEMPTS);
        ghost var took := state != before || outcome == Succeeded;
        ChosenNext(extensions, taken, n, took, old(state));
        taken := taken + [took];
        if outcome == TunnelUnavailable || outcome == Raised {
          return enabled, taken, Some(ErrorOf(outcome, ExtensionStage));
        }
        enabled := enabled + [outcome == Succeeded];
      }
      assert extensions[..|extensions|] == extensions;
    }
  }

  lemma OneRun(st: Statement, s: State)
    ensures Run([st], s) == Apply(st, s)
  {
    assert [st][..0] == [];
  }

  lemma ChosenNone(s: State)
    ensures Run(Chosen([], []), s) == s
  {
  }

  lemma RunNothing(s: State)
    ensures Run([], s) == s
  {
  }

  /** A single create-if-absent either took effect or did not; a reported success means it did. */
  lemma {:induction false} SingleStatement(st: Statement, s: State, fates: seq<Fate>, attempts: nat)
    requires st.CreateIfAbsent? && attempts <= |fates|
    ensures var r := Retry([st], s, fates, attempts);
            && (r.state == s || r.state == Run([st], s))
            && (r.report == Succeeded ==> r.state == Run([st], s))
    decreases attempts
  {
    OneRun(st, s);
    if attempts > 0 {
      var (s', report) := Attempt([st], s, fates[0]);
      OneStatement(st, s, fates[0]);
      OneRun(st, s');
      if report == TunnelDropped && attempts > 1 {
        SingleStatement(st, s', fates[1..], attempts - 1);
      }
    }
  }

  lemma ChosenNext(extensions: seq<Statement>, taken: seq<bool>, n: nat, took: bool, base: State)
    requires n < |extensions| && |taken| == n
    ensures Run(Chosen(extensions[..n + 1], taken + [took]), base) ==
            var before := Run(Chosen(extensions[..n], taken), base);
            if took then Run([extensions[n]], before) else before
  {
    assert extensions[..n + 1][..n] == extensions[..n];
    assert (taken + [took])[..n] == taken;
    RunAppend(Chosen(extensions[..n], taken), if took then [extensions[n]] else [], base);
  }

  // ---------------------------------------------------------------------------
  // Credentials
  // ---------------------------------------------------------------------------

  /**
   * Roles are created only when absent. After a successful roles script the password just generated for a login
   * role is the role's password exactly when the role is new or already had that very password; a second
   * provisioning run over existing roles therefore writes credentials that do not open the database.
   */
  lemma CredentialsMatchOnlyNewRoles(roles: seq<Statement>, role: string, password: string, s: State)
    requires exists i :: 0 <= i < |roles| && roles[i] == CreateIfAbsent(role, password)
    requires forall i :: 0 <= i < |roles| && roles[i].key == role ==> roles[i] == CreateIfAbsent(role, password)
    ensures role in Run(roles, s)
    ensures Run(roles, s)[role] == password <==> role !in s || s[role] == password
  {
    RunAt(roles, s, role);
    OnlyCreates(roles, role, password, Lookup(s, role));
  }

  /** Provisioning again over an existing role: the password just generated is not the one the role has. */
  lemma ProvisionedAgain()
    ensures Run([CreateIfAbsent("app", "first")], map[]) == map["app" := "first"]
    ensures Run([CreateIfAbsent("app", "second")], map["app" := "first"]) == map["app" := "first"]
  {
    OneRun(CreateIfAbsent("app", "first"), map[]);
    OneRun(CreateIfAbsent("app", "second"), map["app" := "first"]);
  }

  lemma {:induction false} OnlyCreates(roles: seq<Statement>, role: string, password: string, o: Option<string>)
    requires forall i :: 0 <= i < |roles| && roles[i].key == role ==> roles[i] == CreateIfAbsent(role, password)
    ensures Final(roles, role, o) ==
            if o.Some? then o
            else if exists i :: 0 <= i < |roles| && roles[i].key == role then Some(password)
            else None
  {
    if roles != [] {
      var n := |roles| - 1;
      OnlyCreates(roles[..n], role, password, o);
      if i :| 0 <= i < n && roles[..n][i].key == role {
        assert roles[i].key == role;
      }
    }
  }
}
