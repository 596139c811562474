/**
 * The dispatcher: the configured backend, the current strategy, and the
 * operations that resolve, build, store and drive a strategy.
 *
 * Every operation is a pure transition. It returns the next state together
 * with either its value or one of the four named errors. A recorded call
 * log stands in for the messages sent to strategy classes and objects.
 */
module Cleaner {
  import opened Results
  import opened Backends
  import opened Registry

  /** Options handed to a strategy class verbatim; never inspected here. */
  type Options = map<string, string>

  /**
   * A strategy object: either built from a registered class (remembering the
   * class, the exact constructor argument and a serial number that makes it
   * a new object), or an arbitrary object supplied by the caller.
   */
  datatype Instance =
    | Built(ctor: Ctor, args: Option<Options>, serial: nat)
    | Given(obj: nat)

  /** The first element of a `strategy =` assignment. */
  datatype Value =
    | Sym(name: Symbol)  // a strategy name such as :transaction
    | Obj(obj: nat)      // any other object, standing in as the strategy
    | Nil                // nil, which unsets the strategy

  /** The two lifecycle messages forwarded to the strategy. */
  datatype Method = StartMethod | CleanMethod

  /** A message sent to a strategy class (`new`) or to a strategy object. */
  datatype Call =
    | Construct(target: Instance)
    | Invoke(message: Method, target: Instance)

  /** The errors the dispatcher raises. */
  datatype Error =
    | NoORMDetected
    | UnknownStrategySpecified(orm: Orm, name: Symbol)
    | ArgumentError
    | NoStrategySetError

  /**
   * The dispatcher state. `made` counts the strategy objects built so far
   * and supplies the serial number of the next one.
   */
  datatype State = State(
    orm: Option<Orm>,
    strategy: Option<Instance>,
    registry: Table,
    log: seq<Call>,
    made: nat)

  /** The next state and the outcome of one operation. */
  datatype Step<T> = Step(next: State, result: Result<T, Error>)

  /** A fresh dispatcher over a registry: nothing configured, nothing logged. */
  function Init(registry: Table): State {
    State(None, None, registry, [], 0)
  }

  /** The backend a resolution would use: the configured one, else detection. */
  function Resolved(s: State, present: set<Orm>): Option<Orm> {
    if s.orm.Some? then s.orm else Detect(present)
  }

  /** The `orm =` writer: sets or clears the configured backend and nothing else. */
  function SetOrm(s: State, orm: Option<Orm>): (r: State)
    ensures r.orm == orm
    ensures r.(orm := s.orm) == s
  {
    s.(orm := orm)
  }

  /**
   * The backend in force. A configured backend wins whatever the markers
   * say; otherwise detection runs and its answer is cached in the state.
   */
  function ResolveOrm(s: State, present: set<Orm>): (st: Step<Orm>)
    ensures s.orm.Some? ==> st == Step(s, Success(s.orm.value))
    ensures s.orm.None? && present == {} ==> st == Step(s, Failure(NoORMDetected))
    ensures s.orm.None? && present != {} ==> st.result.Success? && st.result.value in present
    ensures s.orm.None? && st.result.Success? ==>
      forall o :: o in present ==> Rank(st.result.value) <= Rank(o)
    ensures st.result.Success? ==> st.next == s.(orm := Some(st.result.value))
  {
    match s.orm
    case Some(o) => Step(s, Success(o))
    case None =>
      match Detect(present)
      case None => Step(s, Failure(NoORMDetected))
      case Some(o) => Step(s.(orm := Some(o)), Success(o))
  }

  /**
   * `create_strategy(name, opts)`: resolve the backend, look up the class
   * registered for (backend, name), and build one new object with exactly
   * `opts` as its argument (None: called with no argument at all). The
   * constructor call is logged; the current strategy is not touched. The
   * backend found by detection stays cached even when the lookup fails.
   */
  function CreateStrategy(s: State, present: set<Orm>, name: Symbol, opts: Option<Options>): (st: Step<Instance>)
    ensures st.result.Success? <==>
      Resolved(s, present).Some? && (Resolved(s, present).value, name) in s.registry
    ensures st.result.Success? ==>
      && st.result.value == Built(s.registry[(Resolved(s, present).value, name)], opts, s.made)
      && st.next == s.(orm := Resolved(s, present),
                       log := s.log + [Construct(st.result.value)],
                       made := s.made + 1)
    ensures st.result == Failure(NoORMDetected) <==> s.orm.None? && present == {}
    ensures st.result.Failure? && Resolved(s, present).Some? ==>
      st.result.error == UnknownStrategySpecified(Resolved(s, present).value, name)
    ensures st.result.Failure? ==> st.next == s.(orm := Resolved(s, present))
  {
    match ResolveOrm(s, present)
    case Step(s1, Failure(e)) => Step(s1, Failure(e))
    case Step(s1, Success(o)) =>
      match Lookup(s1.registry, o, name)
      case None => Step(s1, Failure(UnknownStrategySpecified(o, name)))
      case Some(c) =>
        var made := Built(c, opts, s1.made);
        Step(s1.(log := s1.log + [Construct(made)], made := s1.made + 1), Success(made))
  }

  /**
   * `strategy = head` or `strategy = head, opts`. A name is resolved and
   * built; an object given alone is stored unchanged; nil given alone
   * unsets the strategy; anything but a name paired with options is an
   * ArgumentError. On any error the current strategy is kept.
   */
  function Assign(s: State, present: set<Orm>, head: Value, opts: Option<Options>): (st: Step<Option<Instance>>)
    ensures st.result.Failure? <==>
      if head.Sym? then Resolved(s, present).None? || (Resolved(s, present).value, head.name) !in s.registry
      else opts.Some?
    ensures !head.Sym? && opts.Some? ==> st == Step(s, Failure(ArgumentError))
    ensures head.Obj? && opts.None? ==>
      st == Step(s.(strategy := Some(Given(head.obj))), Success(Some(Given(head.obj))))
    ensures head.Nil? && opts.None? ==> st == Step(s.(strategy := None), Success(None))
    ensures head.Sym? && st.result.Success? ==>
      && st.result.value == Some(Built(s.registry[(Resolved(s, present).value, head.name)], opts, s.made))
      && st.next.strategy == st.result.value
      && st.next.orm == Resolved(s, present)
      && st.next.log == s.log + [Construct(st.result.value.value)]
      && st.next.made == s.made + 1
    ensures head.Sym? && st.result.Failure? ==>
      st.result.error == if Resolved(s, present).None? then NoORMDetected
                         else UnknownStrategySpecified(Resolved(s, present).value, head.name)
    ensures st.result.Failure? ==> st.next == s.(orm := st.next.orm)
    ensures st.result.Failure? ==> st.next.orm == (if head.Sym? then Resolved(s, present) else s.orm)
    ensures st.next.registry == s.registry
  {
    match head
    case Sym(name) =>
      var built := CreateStrategy(s, present, name, opts);
      if built.result.Failure? then Step(built.next, Failure(built.result.error))
      else Step(built.next.(strategy := Some(built.result.value)), Success(Some(built.result.value)))
    case Obj(obj) =>
      if opts.Some? then Step(s, Failure(ArgumentError))
      else Step(s.(strategy := Some(Given(obj))), Success(Some(Given(obj))))
    case Nil =>
      if opts.Some? then Step(s, Failure(ArgumentError))
      else Step(s.(strategy := None), Success(None))
  }

  /** The private `strategy` reader: the current strategy or NoStrategySetError. */
  function Current(s: State): (r: Result<Instance, Error>)
    ensures r.Success? <==> s.strategy.Some?
    ensures r.Success? ==> Some(r.value) == s.strategy
    ensures r.Failure? ==> r.error == NoStrategySetError
  {
    match s.strategy
    case Some(i) => Success(i)
    case None => Failure(NoStrategySetError)
  }

  /**
   * Forwards one lifecycle message to exactly the current strategy, or
   * raises NoStrategySetError without changing anything when none is set.
   */
  function Delegate(s: State, m: Method): (st: Step<Instance>)
    ensures s.strategy.None? ==> st == Step(s, Failure(NoStrategySetError))
    ensures s.strategy.Some? ==>
      && st.result == Success(s.strategy.value)
      && st.next == s.(log := s.log + [Invoke(m, s.strategy.value)])
  {
    match Current(s)
    case Failure(e) => Step(s, Failure(e))
    case Success(i) => Step(s.(log := s.log + [Invoke(m, i)]), Success(i))
  }

  /** `start`: forwarded to the current strategy. */
  function Start(s: State): (st: Step<Instance>)
    ensures st.result.Success? ==> Some(st.result.value) == s.strategy
    ensures st.result.Success? ==> st.next.log == s.log + [Invoke(StartMethod, st.result.value)]
    ensures st.result.Failure? ==> s.strategy.None? && st.result.error == NoStrategySetError
    ensures s.strategy.None? ==> st == Step(s, Failure(NoStrategySetError))
    ensures s.strategy.Some? ==> st.next == s.(log := s.log + [Invoke(StartMethod, s.strategy.value)])
  {
    Delegate(s, StartMethod)
  }

  /** `clean`: forwarded to the current strategy. */
  function Clean(s: State): (st: Step<Instance>)
    ensures st.result.Success? ==> Some(st.result.value) == s.strategy
    ensures st.result.Success? ==> st.next.log == s.log + [Invoke(CleanMethod, st.result.value)]
    ensures st.result.Failure? ==> s.strategy.None? && st.result.error == NoStrategySetError
    ensures s.strategy.None? ==> st == Step(s, Failure(NoStrategySetError))
    ensures s.strategy.Some? ==> st.next == s.(log := s.log + [Invoke(CleanMethod, s.strategy.value)])
  {
    Delegate(s, CleanMethod)
  }

  /**
   * `clean_with(name, opts)`: build a strategy exactly as `create_strategy`
   * does and send `clean` to that new object once. The current strategy is
   * left as it was.
   */
  function CleanWith(s: State, present: set<Orm>, name: Symbol, opts: Option<Options>): (st: Step<Instance>)
    ensures st.result.Success? <==>
      Resolved(s, present).Some? && (Resolved(s, present).value, name) in s.registry
    ensures st.result.Success? ==>
      && st.result.value == Built(s.registry[(Resolved(s, present).value, name)], opts, s.made)
      && st.next.log == s.log + [Construct(st.result.value), Invoke(CleanMethod, st.result.value)]
    ensures st.result.Failure? ==>
      st.result.error == if Resolved(s, present).None? then NoORMDetected
                         else UnknownStrategySpecified(Resolved(s, present).value, name)
    ensures st.result.Failure? ==> st.next.log == s.log
    ensures st.next.strategy == s.strategy
    ensures st.next.orm == (if Resolved(s, present).Some? then Resolved(s, present) else s.orm)
    ensures st.result.Success? ==>
      st.next == s.(orm := Resolved(s, present),
                    log := s.log + [Construct(st.result.value), Invoke(CleanMethod, st.result.value)],
                    made := s.made + 1)
    ensures st.result.Failure? ==> st.next == s.(orm := Resolved(s, present))
  {
    var built := CreateStrategy(s, present, name, opts);
    match built.result
    case Failure(e) => built
    case Success(i) => Step(built.next.(log := built.next.log + [Invoke(CleanMethod, i)]), Success(i))
  }
}
