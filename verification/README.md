# DatabaseCleaner strategy core in Dafny

DatabaseCleaner lets a test suite say "clean the database between tests"
without knowing which persistence library is loaded or which cleaning
technique is used. This project models its strategy-resolution and
delegation core, as its RSpec examples in `spec/database_cleaner/configuration_spec.rb` exercise it:

- **Detection** (`Backends`): the ORM is taken from the markers of the loaded
  libraries (ActiveRecord, DataMapper, MongoMapper, CouchPotato). The set of
  present markers is an explicit input of every operation that may detect.
- **Lookup** (`Registry`): a `(orm, strategy name)` pair is looked up in a
  table of strategy classes. `Default` holds the two transaction strategies
  the examples load.
- **Dispatch** (`Cleaner`): an immutable state holds the configured ORM, the
  current strategy, the registry, a log of calls sent to strategy classes and
  objects, and a counter of built objects. `orm=`, `strategy=`,
  `create_strategy`, `clean_with`, `start` and `clean` are pure transitions.
  `orm=` returns the next state; the others return the next state with
  either a value or one of the four errors
  `NoORMDetected`, `UnknownStrategySpecified`, `ArgumentError` and
  `NoStrategySetError`.
- **Connection classes** (`Connections`): the ActiveRecord connection-class
  list and its merge rule.

Options are `Option<map<string, string>>`. `None` means the constructor is
called with no argument, which is not the same as `Some(map[])`. A strategy
object is either `Built(class, args, serial)` or `Given(obj)`, the latter
being an arbitrary object the caller supplied. The first element of a
`strategy =` assignment is `Sym(name)`, `Obj(obj)` or `Nil`.

`Properties` relates the operations to each other. `Scenarios` restates each
example of that RSpec file as a lemma about the model.

Modelling decisions:

- Detection order is ActiveRecord, DataMapper, MongoMapper, CouchPotato. The
  examples never load two libraries at once, so this order is an assumption
  of the model rather than asserted behaviour.
- A detected ORM is cached in the state. The example at lines 59-69 has to
  clear `orm` before the changed markers take effect, which shows the cache.
  The cache is written as soon as detection succeeds, so it survives a later
  `UnknownStrategySpecified` in the same call.
- `clean_with` is one-shot: it builds and cleans a new object and leaves the
  current strategy as it was. The examples at lines 50-56 do not say
  whether `clean_with` replaces the current strategy; the model keeps it.
  `Properties.CleanWithIsAssignThenClean` shows that `clean_with` equals
  `strategy =` followed by `clean` in every respect except that field.
- The "any object" escape hatch lives in `strategy =`. The examples give
  `create_strategy` a name only, so `CreateStrategy` takes a `Symbol`.
- `strategy = nil` (line 38) is an assignment whose head is `Nil` with no
  options. Like any other object given alone, it is stored, and storing it
  unsets the strategy.

## Model

| member | source | states |
|---|---|---|
| `Connections.ConnectionKlasses` | spec/database_cleaner/configuration_spec.rb:10-12 | with nothing assigned the list is exactly `[ActiveRecord::Base]`; otherwise it is the stored list |
| `Connections.Merge` | spec/database_cleaner/configuration_spec.rb:13-18 | the stored list starts with the assigned classes, contains exactly those plus the base class, and adds the base class only when it is missing |
| `Connections.AssignedKeepsDefault` | spec/database_cleaner/configuration_spec.rb:13-18 | after an assignment the reader reports every assigned class and every default class |
| `Backends.Rank` | spec/database_cleaner/configuration_spec.rb:71-74 | every backend has a position in the probe order ActiveRecord, DataMapper, MongoMapper, CouchPotato (an assumed order), and the order lists it there |
| `Backends.FirstPresent` | spec/database_cleaner/configuration_spec.rb:71-77 | finds the first position in a probe order whose marker is present; it finds none exactly when no listed marker is present |
| `Backends.Detect` | spec/database_cleaner/configuration_spec.rb:59-77 | detection fails exactly when no marker is present; otherwise it picks a present backend ranked no lower than any other present one |
| `Backends.DetectPrefersEarlier` | spec/database_cleaner/configuration_spec.rb:71-74 | of two present markers, the one later in the assumed order is never chosen |
| `Registry.Lookup` | spec/database_cleaner/configuration_spec.rb:90-92 | a class is found exactly when the `(orm, name)` pair is registered, and it is the registered one |
| `Cleaner.SetOrm` | spec/database_cleaner/configuration_spec.rb:79-80 | `orm=` sets or clears the configured ORM and changes nothing else |
| `Cleaner.ResolveOrm` | spec/database_cleaner/configuration_spec.rb:59-84 | a configured ORM is used regardless of markers; otherwise detection runs and its result is cached; with no marker present it raises `NoORMDetected` and changes nothing |
| `Cleaner.CreateStrategy` | spec/database_cleaner/configuration_spec.rb:42-47 | on success it returns a new object of the class registered for (resolved ORM, name), built with exactly the given options, and logs one constructor call; it fails exactly when resolution or lookup fails, with `NoORMDetected` or `UnknownStrategySpecified` |
| `Cleaner.Assign` | spec/database_cleaner/configuration_spec.rb:58-97 | fails exactly on an unresolvable or unregistered name, or on a non-name paired with options (`ArgumentError`, state unchanged); an object alone is stored unchanged without detection; a name stores the newly built object; on failure the strategy, log and counter are kept, and the ORM is the one resolution cached (unchanged for a non-name) |
| `Cleaner.Current` | spec/database_cleaner/configuration_spec.rb:112-114 | the current strategy, or `NoStrategySetError` exactly when none is set |
| `Cleaner.Delegate` | spec/database_cleaner/configuration_spec.rb:102-116 | forwards the message to exactly the stored object and logs it; with no strategy it raises `NoStrategySetError` and changes nothing |
| `Cleaner.Start` | spec/database_cleaner/configuration_spec.rb:102-114 | `start` reaches exactly the stored strategy and only appends that call to the log, leaving ORM, strategy and counter unchanged; with no strategy it raises `NoStrategySetError` and changes nothing |
| `Cleaner.Clean` | spec/database_cleaner/configuration_spec.rb:102-114 | `clean` reaches exactly the stored strategy and only appends that call to the log, leaving ORM, strategy and counter unchanged; with no strategy it raises `NoStrategySetError` and changes nothing |
| `Cleaner.CleanWith` | spec/database_cleaner/configuration_spec.rb:50-56 | on success it builds the registered class with exactly the options and logs that construction followed by one `clean` on that object; the current strategy is kept; the counter advances by one; errors as for `create_strategy`, and on failure only the cached ORM changes |
| `Properties.ResolveOrmIsCached` | spec/database_cleaner/configuration_spec.rb:59-69 | after one successful resolution, a later one returns the same ORM under any markers and changes nothing |
| `Properties.AssignKeepsResolvedOrm` | spec/database_cleaner/configuration_spec.rb:59-65 | after an assignment by name, later resolutions ignore changed markers until `orm` is cleared |
| `Properties.ClearedOrmIsRedetected` | spec/database_cleaner/configuration_spec.rb:63-68 | after `orm = nil` resolution is detection again, and it succeeds exactly when some marker is present |
| `Properties.ConfiguredOrmWins` | spec/database_cleaner/configuration_spec.rb:79-84 | with an ORM configured, assignment by name builds that ORM's class whatever markers are present |
| `Properties.DetectionDecides` | spec/database_cleaner/configuration_spec.rb:59-77 | with no ORM configured, no marker means `NoORMDetected` with the state unchanged, and otherwise the detected ORM's class is built |
| `Properties.OptionsPassedVerbatim` | spec/database_cleaner/configuration_spec.rb:60-68 | the constructor receives exactly the given options, and "no argument" yields a different object than an empty hash |
| `Properties.AssignThenDelegate` | spec/database_cleaner/configuration_spec.rb:102-110 | after any successful assignment of a strategy, `start`/`clean` go to exactly the stored object |
| `Properties.UnsetThenDelegate` | spec/database_cleaner/configuration_spec.rb:112-114 | after `strategy = nil`, `start`/`clean` raise `NoStrategySetError` |
| `Properties.CleanWithIsAssignThenClean` | spec/database_cleaner/configuration_spec.rb:50-56 | `clean_with` succeeds exactly when `strategy =` by name does, and matches `strategy =` then `clean` in outcome, ORM, log and counter; only the current strategy differs |
| `Properties.InitWf` | spec/database_cleaner/configuration_spec.rb:35-40 | a fresh dispatcher satisfies the object-counter invariant |
| `Properties.ApplyPreservesWf` | spec/database_cleaner/configuration_spec.rb:42-116 | every public operation keeps the invariant, whether it succeeds or raises |
| `Properties.RunPreservesWf` | spec/database_cleaner/configuration_spec.rb:42-116 | every session of operations, under changing markers, keeps the invariant |
| `Properties.ReachableWf` | spec/database_cleaner/configuration_spec.rb:35-116 | every state reachable from a fresh dispatcher satisfies the invariant |
| `Properties.RunExtendsLog` | spec/database_cleaner/configuration_spec.rb:42-116 | a session only appends to the call log and never changes the registry |
| `Properties.BuiltIsNew` | spec/database_cleaner/configuration_spec.rb:44-46 | a strategy built by name is a new object, neither the current strategy nor any object already in the log |
| `Scenarios.Reset` | spec/database_cleaner/configuration_spec.rb:35-40 | setting strategy and orm to nil leaves both unset and the log, counter and registry unchanged |
| `Scenarios.ConnectionKlassesExample` | spec/database_cleaner/configuration_spec.rb:10-18 | the default list is `[ActiveRecord::Base]`; after assigning `[model]` both `model` and the base class are included |
| `Scenarios.CreateStrategyExample` | spec/database_cleaner/configuration_spec.rb:42-47 | `create_strategy(:transaction, opts)` returns the ActiveRecord transaction built with opts, and the constructor call is logged |
| `Scenarios.CleanWithExample` | spec/database_cleaner/configuration_spec.rb:50-56 | `clean_with(:transaction, opts)` logs the construction with opts and then one `clean` on that object |
| `Scenarios.DetectedOrmExample` | spec/database_cleaner/configuration_spec.rb:59-69 | ActiveRecord is used first; after the markers change and `orm` is cleared, DataMapper's transaction is built with no argument; without clearing, ActiveRecord is still used |
| `Scenarios.NoOrmExample` | spec/database_cleaner/configuration_spec.rb:71-77 | with no marker present, `strategy = :transaction` raises `NoORMDetected` |
| `Scenarios.ConfiguredOrmExample` | spec/database_cleaner/configuration_spec.rb:79-84 | with `orm = 'data_mapper'` and ActiveRecord loaded, the DataMapper transaction is built |
| `Scenarios.ObjectWithOptionsExample` | spec/database_cleaner/configuration_spec.rb:86-88 | an object paired with options raises `ArgumentError` |
| `Scenarios.UnknownStrategyExample` | spec/database_cleaner/configuration_spec.rb:90-92 | `strategy = :foo` raises `UnknownStrategySpecified` |
| `Scenarios.AnyObjectExample` | spec/database_cleaner/configuration_spec.rb:94-97 | any object alone is accepted and stored as given, under any markers |
| `Scenarios.DelegationExample` | spec/database_cleaner/configuration_spec.rb:102-110 | after `strategy = :transaction`, `start` and `clean` are each logged against exactly the built object |
| `Scenarios.NoStrategyExample` | spec/database_cleaner/configuration_spec.rb:112-114 | with the strategy reset, `start` and `clean` raise `NoStrategySetError` |

## Left out

- The concrete strategies (ActiveRecord and DataMapper transaction, truncation, deletion) and all database work. They are I/O; here a strategy is an opaque object that records the `start` and `clean` messages it receives.
- How DatabaseCleaner finds and loads strategy classes. The examples show only that an unregistered name (`:foo`, lines 90-92) raises `UnknownStrategySpecified`; the model looks the class up in a table, and the error's message text is not modelled.
- Passing a strategy object built by `create_strategy` back through `strategy =` (lines 94-97 allow any object). An object the caller supplies is a foreign object `Obj(id)`, stored as `Given(id)`, so `Obj` never carries a `Built` value. Admitting arbitrary `Built` values there would let a caller forge a serial number and break the invariant that every built object is new (`Properties.Wf`, `Properties.BuiltIsNew`).
- Ruby constant juggling and global state. The loaded libraries are an explicit marker set passed to each operation.
- Message expectations and stubs of the test framework. They are replaced by the call log.
- Duck typing. Every object is assumed to answer `start` and `clean`. The `NoMethodError` that an object lacking them would raise when the message is sent is not modelled.
- Assignments with more than two elements. Only a lone head and a `(head, options)` pair are modelled.
- `orm=` with a string that names no known ORM. The ORM is a datatype, so `'data_mapper'` is written `DataMapper`.
- Mutation of the caller's own array by the connection-class writer. The model stores the merged list as a value.
- Backends.DetectPrefersEarlier: states the assumed detection order, which no example asserts.
