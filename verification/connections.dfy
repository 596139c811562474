/**
 * The classes the ActiveRecord strategies take their database connections
 * from. Until the user assigns a list the answer is the base model class;
 * an assigned list always keeps the base class.
 */
module Connections {
  import opened Results

  /** A model class: the base class or one of the application's own. */
  datatype Klass = ActiveRecordBase | Model(name: string)

  /** The list the reader reports, given what has been assigned so far. */
  function ConnectionKlasses(stored: Option<seq<Klass>>): (r: seq<Klass>)
    ensures stored.None? ==> r == [ActiveRecordBase]
    ensures stored.Some? ==> r == stored.value
  {
    match stored
    case None => [ActiveRecordBase]
    case Some(klasses) => klasses
  }

  /**
   * What the writer stores for a user list: the list itself, with the base
   * class appended when the user did not name it.
   */
  function Merge(other: seq<Klass>): (r: seq<Klass>)
    ensures ActiveRecordBase in r
    ensures forall k :: k in r <==> k in other || k == ActiveRecordBase
    ensures |other| <= |r| && r[..|other|] == other
    ensures |r| == |other| + (if ActiveRecordBase in other then 0 else 1)
  {
    if ActiveRecordBase in other then other else other + [ActiveRecordBase]
  }

  /** Assigning a list and reading it back yields each assigned class and the default one. */
  lemma AssignedKeepsDefault(other: seq<Klass>)
    ensures forall k :: k in other ==> k in ConnectionKlasses(Some(Merge(other)))
    ensures forall k :: k in ConnectionKlasses(None) ==> k in ConnectionKlasses(Some(Merge(other)))
  {
  }
}
