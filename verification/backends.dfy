/**
 * Backend (ORM) detection. A backend counts as loaded when its marker
 * constant is present; the set of present markers is an explicit input
 * rather than ambient process state.
 */
module Backends {
  import opened Results

  /** The persistence libraries the cleaner knows how to drive. */
  datatype Orm = ActiveRecord | DataMapper | MongoMapper | CouchPotato

  /**
   * The order in which markers are probed; the first present marker wins.
   * The examples never put two markers side by side, so this order is an
   * assumption of the model, not an asserted behaviour.
   */
  const Priority: seq<Orm> := [ActiveRecord, DataMapper, MongoMapper, CouchPotato]

  /** Position of a backend in the probe order; every backend has one. */
  function Rank(o: Orm): (k: nat)
    ensures k < |Priority| && Priority[k] == o
  {
    match o
    case ActiveRecord => 0
    case DataMapper => 1
    case MongoMapper => 2
    case CouchPotato => 3
  }

  /** Index of the first backend in `order` whose marker is present. */
  function FirstPresent(order: seq<Orm>, present: set<Orm>): (r: Option<nat>)
    ensures r.None? <==> forall i :: 0 <= i < |order| ==> order[i] !in present
    ensures r.Some? ==> r.value < |order| && order[r.value] in present
    ensures r.Some? ==> forall j :: 0 <= j < r.value ==> order[j] !in present
    decreases |order|
  {
    if |order| == 0 then None
    else if order[0] in present then Some(0)
    else
      match FirstPresent(order[1..], present)
      case None => None
      case Some(k) => Some(k + 1)
  }

  /**
   * Auto-detection: the highest-priority backend whose marker is present,
   * or None when no known marker is present.
   */
  function Detect(present: set<Orm>): (r: Option<Orm>)
    ensures r.None? <==> present == {}
    ensures r.Some? ==> r.value in present
    ensures r.Some? ==> forall o :: o in present ==> Rank(r.value) <= Rank(o)
  {
    match FirstPresent(Priority, present)
    case None =>
      assert present == {} by {
        forall o
          ensures o !in present
        {
          assert Priority[Rank(o)] !in present;
        }
      }
      None
    case Some(k) =>
      Some(Priority[k])
  }

  /** Of two present markers, the one earlier in the probe order is chosen. */
  lemma DetectPrefersEarlier(a: Orm, b: Orm, present: set<Orm>)
    requires a in present && b in present
    requires Rank(a) < Rank(b)
    ensures Detect(present) != Some(b)
  {
  }
}
