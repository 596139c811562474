/**
 * The strategy registry: which strategy class implements a named cleaning
 * technique for a given backend.
 */
module Registry {
  import opened Results
  import opened Backends

  /** A strategy name as given by the caller, such as `:transaction`. */
  type Symbol = string

  /** A strategy class, named by its fully qualified constant. */
  datatype Ctor = Ctor(klass: string)

  /** Bindings from (backend, strategy name) to the class that implements it. */
  type Table = map<(Orm, Symbol), Ctor>

  /** The two transaction strategies loaded alongside the cleaner. */
  const Default: Table := map[
    (ActiveRecord, "transaction") := Ctor("DatabaseCleaner::ActiveRecord::Transaction"),
    (DataMapper, "transaction") := Ctor("DatabaseCleaner::DataMapper::Transaction")
  ]

  /** The class registered for `name` under `orm`, if there is one. */
  function Lookup(t: Table, orm: Orm, name: Symbol): (r: Option<Ctor>)
    ensures r.Some? <==> (orm, name) in t
    ensures r.Some? ==> r.value == t[(orm, name)]
  {
    if (orm, name) in t then Some(t[(orm, name)]) else None
  }
}
