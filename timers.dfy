/**
 * The timers of one Qt object: QObject::startTimer hands out a fresh positive id
 * for a periodic timer, QObject::killTimer stops it. A timer keeps firing at its
 * interval until it is killed, so firing does not remove it from the set.
 */
module Timers {

  class TimerSet {
    /** Live timers: id -> interval in milliseconds. */
    var active: map<int, nat>
    /** The id the next startTimer call hands out. */
    var nextId: int

    ghost predicate Valid()
      reads this
    {
      nextId >= 1 && forall id :: id in active ==> 1 <= id < nextId
    }

    constructor ()
      ensures Valid() && active == map[] && nextId == 1
    {
      active := map[];
      nextId := 1;
    }

    /** QObject::startTimer(interval). */
    method Start(interval: nat) returns (id: int)
      requires Valid()
      modifies this
      ensures Valid()
      ensures id == old(nextId) && id >= 1 && id !in old(active)
      ensures active == old(active)[id := interval] && nextId == old(nextId) + 1
    {
      id := nextId;
      active := active[id := interval];
      nextId := nextId + 1;
    }

    /** QObject::killTimer(id); an id that is not live is ignored. */
    method Kill(id: int)
      requires Valid()
      modifies this
      ensures Valid()
      ensures active == old(active) - {id} && nextId == old(nextId)
    {
      active := active - {id};
    }
  }
}
