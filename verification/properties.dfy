/**
 * Properties that relate several dispatcher operations: caching of the
 * resolved backend, precedence of a configured backend, delegation to the
 * stored strategy, the one-shot `clean_with`, and the invariant that every
 * built strategy object is new.
 */
module Properties {
  import opened Results
  import opened Backends
  import opened Registry
  import opened Cleaner

  /**
   * Once resolved, the backend is cached: a later resolution returns the
   * same backend whatever markers are present then, and changes nothing.
   */
  lemma ResolveOrmIsCached(s: State, first: set<Orm>, later: set<Orm>)
    requires ResolveOrm(s, first).result.Success?
    ensures ResolveOrm(ResolveOrm(s, first).next, later)
         == Step(ResolveOrm(s, first).next, ResolveOrm(s, first).result)
  {
  }

  /**
   * A successful assignment by name leaves the resolved backend cached, so
   * the next assignment uses it even if the markers have changed.
   */
  lemma AssignKeepsResolvedOrm(s: State, first: set<Orm>, later: set<Orm>, name: Symbol, opts: Option<Options>)
    requires Assign(s, first, Sym(name), opts).result.Success?
    ensures Resolved(Assign(s, first, Sym(name), opts).next, later) == Resolved(s, first)
  {
  }

  /** Clearing the configured backend makes the next resolution detect again. */
  lemma ClearedOrmIsRedetected(s: State, present: set<Orm>)
    ensures Resolved(SetOrm(s, None), present) == Detect(present)
    ensures ResolveOrm(SetOrm(s, None), present).result.Success? <==> present != {}
  {
  }

  /**
   * A configured backend takes precedence over detection: the strategy is
   * built from that backend's class whatever markers are present.
   */
  lemma ConfiguredOrmWins(s: State, orm: Orm, present: set<Orm>, name: Symbol, opts: Option<Options>)
    requires (orm, name) in s.registry
    ensures Assign(SetOrm(s, Some(orm)), present, Sym(name), opts).result
         == Success(Some(Built(s.registry[(orm, name)], opts, s.made)))
  {
  }

  /**
   * With no backend configured, the strategy comes from the highest-priority
   * present marker; with no marker present, assignment by name fails with
   * NoORMDetected and changes nothing.
   */
  lemma DetectionDecides(s: State, present: set<Orm>, name: Symbol, opts: Option<Options>)
    requires s.orm.None?
    ensures present == {} ==> Assign(s, present, Sym(name), opts) == Step(s, Failure(NoORMDetected))
    ensures present != {} && (Detect(present).value, name) in s.registry ==>
      Assign(s, present, Sym(name), opts).result
        == Success(Some(Built(s.registry[(Detect(present).value, name)], opts, s.made)))
  {
  }

  /**
   * The constructor receives exactly the options given: none when the name
   * was assigned alone, which differs from an empty options map.
   */
  lemma OptionsPassedVerbatim(s: State, present: set<Orm>, name: Symbol, opts: Option<Options>)
    requires Assign(s, present, Sym(name), opts).result.Success?
    ensures Assign(s, present, Sym(name), opts).result.value.value.args == opts
    ensures Assign(s, present, Sym(name), None).result != Assign(s, present, Sym(name), Some(map[])).result
  {
  }

  /**
   * After any successful assignment of a strategy, `start` and `clean` are
   * forwarded to exactly the stored object.
   */
  lemma AssignThenDelegate(s: State, present: set<Orm>, head: Value, opts: Option<Options>, m: Method)
    requires Assign(s, present, head, opts).result.Success?
    requires Assign(s, present, head, opts).result.value.Some?
    ensures
      var a := Assign(s, present, head, opts);
      var i := a.result.value.value;
      Delegate(a.next, m) == Step(a.next.(log := a.next.log + [Invoke(m, i)]), Success(i))
  {
  }

  /** After the strategy is set to nil, `start` and `clean` raise NoStrategySetError. */
  lemma UnsetThenDelegate(s: State, present: set<Orm>, m: Method)
    ensures Delegate(Assign(s, present, Nil, None).next, m).result == Failure(NoStrategySetError)
  {
  }

  /**
   * `clean_with` has the same effect on backend, log and counter as an
   * assignment by name followed by `clean`, and the same outcome; the only
   * difference is that it keeps the current strategy.
   */
  lemma CleanWithIsAssignThenClean(s: State, present: set<Orm>, name: Symbol, opts: Option<Options>)
    ensures
      var a := Assign(s, present, Sym(name), opts);
      var c := CleanWith(s, present, name, opts);
      && (a.result.Success? <==> c.result.Success?)
      && (a.result.Success? ==>
            && Clean(a.next).result == c.result
            && Clean(a.next).next == c.next.(strategy := a.next.strategy))
      && (a.result.Failure? ==> c == Step(a.next, Failure(a.result.error)))
  {
  }

  /** Whether a strategy object was built by this dispatcher with a serial below `bound`. */
  predicate SerialBelow(i: Instance, bound: nat) {
    i.Built? ==> i.serial < bound
  }

  /** The number of constructor calls in a log. */
  function Constructs(log: seq<Call>): nat {
    if |log| == 0 then 0
    else Constructs(log[..|log| - 1]) + (if log[|log| - 1].Construct? then 1 else 0)
  }

  /**
   * The counter equals the number of constructor calls logged, and every
   * built object the state mentions has a serial below it.
   */
  predicate Wf(s: State) {
    && Constructs(s.log) == s.made
    && (forall k :: 0 <= k < |s.log| ==> SerialBelow(s.log[k].target, s.made))
    && (s.strategy.Some? ==> SerialBelow(s.strategy.value, s.made))
  }

  /** A fresh dispatcher is well formed. */
  lemma InitWf(registry: Table)
    ensures Wf(Init(registry))
  {
  }

  /** Every public operation, as one step of a caller's session. */
  datatype Op =
    | SetOrmOp(orm: Option<Orm>)
    | AssignOp(head: Value, opts: Option<Options>)
    | CreateOp(name: Symbol, opts: Option<Options>)
    | CleanWithOp(name: Symbol, opts: Option<Options>)
    | DelegateOp(m: Method)

  /** The state after one operation, whether it succeeded or raised. */
  function Apply(s: State, present: set<Orm>, op: Op): State {
    match op
    case SetOrmOp(orm) => SetOrm(s, orm)
    case AssignOp(head, opts) => Assign(s, present, head, opts).next
    case CreateOp(name, opts) => CreateStrategy(s, present, name, opts).next
    case CleanWithOp(name, opts) => CleanWith(s, present, name, opts).next
    case DelegateOp(m) => Delegate(s, m).next
  }

  /** The state after a session of operations, each under its own markers. */
  function Run(s: State, session: seq<(set<Orm>, Op)>): State
    decreases |session|
  {
    if |session| == 0 then s
    else Run(Apply(s, session[0].0, session[0].1), session[1..])
  }

  /** Every operation keeps the state well formed. */
  lemma ApplyPreservesWf(s: State, present: set<Orm>, op: Op)
    requires Wf(s)
    ensures Wf(Apply(s, present, op))
  {
  }

  /** Every session keeps the state well formed. */
  lemma {:induction false} RunPreservesWf(s: State, session: seq<(set<Orm>, Op)>)
    requires Wf(s)
    ensures Wf(Run(s, session))
    decreases |session|
  {
    if |session| > 0 {
      ApplyPreservesWf(s, session[0].0, session[0].1);
      RunPreservesWf(Apply(s, session[0].0, session[0].1), session[1..]);
    }
  }

  /** Every state a session reaches from a fresh dispatcher is well formed. */
  lemma ReachableWf(registry: Table, session: seq<(set<Orm>, Op)>)
    ensures Wf(Run(Init(registry), session))
  {
    InitWf(registry);
    RunPreservesWf(Init(registry), session);
  }

  /**
   * The call log is append-only and the registry is never changed: a
   * session only adds calls after the ones already recorded.
   */
  lemma {:induction false} RunExtendsLog(s: State, session: seq<(set<Orm>, Op)>)
    ensures |s.log| <= |Run(s, session).log|
    ensures Run(s, session).log[..|s.log|] == s.log
    ensures Run(s, session).registry == s.registry
    decreases |session|
  {
    if |session| > 0 {
      var s1 := Apply(s, session[0].0, session[0].1);
      assert |s.log| <= |s1.log| && s1.log[..|s.log|] == s.log && s1.registry == s.registry;
      RunExtendsLog(s1, session[1..]);
      assert Run(s, session) == Run(s1, session[1..]);
      assert Run(s1, session[1..]).log[..|s.log|] == Run(s1, session[1..]).log[..|s1.log|][..|s.log|];
    }
  }

  /**
   * In a well-formed state, a strategy object built by name is a new object:
   * it is neither the current strategy nor any object in the log, so it is
   * never confused with one built or supplied earlier.
   */
  lemma BuiltIsNew(s: State, present: set<Orm>, name: Symbol, opts: Option<Options>)
    requires Wf(s)
    requires CreateStrategy(s, present, name, opts).result.Success?
    ensures s.strategy != Some(CreateStrategy(s, present, name, opts).result.value)
    ensures forall k :: 0 <= k < |s.log| ==> s.log[k].target != CreateStrategy(s, present, name, opts).result.value
  {
  }
}
