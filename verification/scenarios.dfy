/**
 * The configuration examples, each as a lemma about the model. A test's
 * loaded libraries become the marker set; its message expectations become
 * calls in the log; its mocked strategy object is the object the model
 * builds.
 */
module Scenarios {
  import opened Results
  import opened Backends
  import opened Registry
  import opened Cleaner
  import opened Connections

  /** The options hash the examples pass along. */
  const Opts: Options := map["options" := "hash"]

  const ArTransaction := Ctor("DatabaseCleaner::ActiveRecord::Transaction")
  const DmTransaction := Ctor("DatabaseCleaner::DataMapper::Transaction")

  /**
   * The state before each example: strategy set to nil, then orm set to nil,
   * starting from any earlier state over the loaded registry.
   */
  function Reset(s: State, present: set<Orm>): (r: State)
    ensures r.orm.None? && r.strategy.None?
    ensures r.log == s.log && r.made == s.made && r.registry == s.registry
  {
    SetOrm(Assign(s, present, Nil, None).next, None)
  }

  /** The connection classes default to the base class and keep it on assignment. */
  lemma ConnectionKlassesExample(model: Klass)
    ensures ConnectionKlasses(None) == [ActiveRecordBase]
    ensures model in ConnectionKlasses(Some(Merge([model])))
    ensures ActiveRecordBase in ConnectionKlasses(Some(Merge([model])))
  {
  }

  /** `create_strategy(:transaction, opts)` builds the ActiveRecord transaction with opts and returns it. */
  lemma CreateStrategyExample(s: State)
    requires s.registry == Default
    ensures
      var st := CreateStrategy(Reset(s, {ActiveRecord}), {ActiveRecord}, "transaction", Some(Opts));
      && st.result == Success(Built(ArTransaction, Some(Opts), s.made))
      && st.next.log == s.log + [Construct(st.result.value)]
  {
  }

  /** `clean_with(:transaction, opts)` builds the strategy with opts and cleans with it once. */
  lemma CleanWithExample(s: State)
    requires s.registry == Default
    ensures
      var i := Built(ArTransaction, Some(Opts), s.made);
      var st := CleanWith(Reset(s, {ActiveRecord}), {ActiveRecord}, "transaction", Some(Opts));
      && st.result == Success(i)
      && st.next.log == s.log + [Construct(i), Invoke(CleanMethod, i)]
  {
  }

  /**
   * The strategy follows the detected backend. After ActiveRecord is
   * unloaded, DataMapper loaded and orm cleared, a bare `:transaction`
   * builds the DataMapper transaction with no argument, not an empty hash.
   * The example does not run the last conjunct: by the cache the model
   * infers from line 65, without clearing orm ActiveRecord would still be
   * used.
   */
  lemma DetectedOrmExample(s: State)
    requires s.registry == Default
    ensures
      var a := Assign(Reset(s, {ActiveRecord}), {ActiveRecord}, Sym("transaction"), Some(Opts));
      var b := Assign(SetOrm(a.next, None), {DataMapper}, Sym("transaction"), None);
      var stale := Assign(a.next, {DataMapper}, Sym("transaction"), None);
      && a.result == Success(Some(Built(ArTransaction, Some(Opts), s.made)))
      && b.result == Success(Some(Built(DmTransaction, None, s.made + 1)))
      && b.next.log == s.log + [Construct(a.result.value.value), Construct(b.result.value.value)]
      && stale.result == Success(Some(Built(ArTransaction, None, s.made + 1)))
  {
  }

  /** With no ActiveRecord, DataMapper or CouchPotato loaded, `strategy = :transaction` raises NoORMDetected. */
  lemma NoOrmExample(s: State)
    ensures Assign(Reset(s, {}), {}, Sym("transaction"), None).result == Failure(NoORMDetected)
  {
  }

  /** `orm = 'data_mapper'` wins over the loaded ActiveRecord. */
  lemma ConfiguredOrmExample(s: State)
    requires s.registry == Default
    ensures
      var st := Assign(SetOrm(Reset(s, {ActiveRecord}), Some(DataMapper)), {ActiveRecord}, Sym("transaction"), None);
      st.result == Success(Some(Built(DmTransaction, None, s.made)))
  {
  }

  /** An object paired with options raises ArgumentError. */
  lemma ObjectWithOptionsExample(s: State, obj: nat)
    ensures Assign(Reset(s, {ActiveRecord}), {ActiveRecord}, Obj(obj), Some(map["foo" := "bar"])).result
         == Failure(ArgumentError)
  {
  }

  /** An unregistered name raises UnknownStrategySpecified. */
  lemma UnknownStrategyExample(s: State)
    requires s.registry == Default
    ensures Assign(Reset(s, {ActiveRecord}), {ActiveRecord}, Sym("foo"), None).result
         == Failure(UnknownStrategySpecified(ActiveRecord, "foo"))
  {
  }

  /** Any object may be set as the strategy, and is stored as given. */
  lemma AnyObjectExample(s: State, obj: nat, present: set<Orm>)
    ensures
      var st := Assign(Reset(s, present), present, Obj(obj), None);
      st.result.Success? && st.next.strategy == Some(Given(obj))
  {
  }

  /** `start` and `clean` go to the strategy set by `strategy = :transaction`. */
  lemma DelegationExample(s: State, m: Method)
    requires s.registry == Default
    ensures
      var a := Assign(Reset(s, {ActiveRecord}), {ActiveRecord}, Sym("transaction"), None);
      var i := Built(ArTransaction, None, s.made);
      Delegate(a.next, m) == Step(a.next.(log := s.log + [Construct(i), Invoke(m, i)]), Success(i))
  {
  }

  /** Without a strategy, `start` and `clean` raise NoStrategySetError. */
  lemma NoStrategyExample(s: State, m: Method)
    ensures Delegate(Reset(s, {ActiveRecord}), m).result == Failure(NoStrategySetError)
  {
  }
}
