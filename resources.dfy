/**
 * The operator pool that every simulator variant requests one unit from per
 * order: a `simpy.Resource` of capacity `staff_count`.  The model keeps the
 * grant state SimPy keeps: how many units are held and the FIFO queue of
 * waiting order ids.  FIFO granting is the documented behaviour of
 * `simpy.Resource`; here it is the definition of the pool.
 */
module Resources {
  import opened Numeric

  class OperatorPool {
    const capacity: nat
    var inUse: nat
    var queue: seq<nat>

    /** No more units are held than exist, and nobody waits while a unit is free. */
    ghost predicate Valid()
      reads this
    {
      0 < capacity && inUse <= capacity && (queue != [] ==> inUse == capacity)
    }

    /** SimPy refuses a resource whose capacity is not positive. */
    constructor (capacity: nat)
      requires capacity > 0
      ensures Valid() && this.capacity == capacity && inUse == 0 && queue == []
    {
      this.capacity := capacity;
      inUse := 0;
      queue := [];
    }

    /** `resource.request()` for order `id`: granted at once iff a unit is free, else queued at the back. */
    method Request(id: nat) returns (granted: bool)
      requires Valid()
      modifies this
      ensures Valid()
      ensures granted <==> old(inUse) < capacity
      ensures granted ==> inUse == old(inUse) + 1 && queue == old(queue) == []
      ensures !granted ==> inUse == old(inUse) && queue == old(queue) + [id]
    {
      granted := inUse < capacity;
      if granted {
        inUse := inUse + 1;
      } else {
        queue := queue + [id];
      }
    }

    /**
     * Leaving the `with ... request()` block: the unit passes to the head of
     * the queue when somebody waits, otherwise it becomes free.
     */
    method Release() returns (next: Option<nat>)
      requires Valid() && inUse > 0
      modifies this
      ensures Valid()
      ensures old(queue) != [] ==> next == Some(old(queue)[0]) && queue == old(queue)[1..] && inUse == old(inUse)
      ensures old(queue) == [] ==> next == None && queue == [] && inUse == old(inUse) - 1
    {
      if queue != [] {
        next := Some(queue[0]);
        queue := queue[1..];
      } else {
        next := None;
        inUse := inUse - 1;
      }
    }
  }
}
