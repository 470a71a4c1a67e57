/** The FIFO queue the threads hand work over with. Each method is one critical section of its mutex. */
module ThreadSafeQueue {
  import opened Common

  class Queue<T> {
    var items: seq<T>
    var closed: bool

    constructor ()
      ensures items == [] && !closed
    {
      items, closed := [], false;
    }

    method Push(item: T)
      modifies this
      ensures items == old(items) + [item] && closed == old(closed)
    {
      items := items + [item];
    }

    method PushAll(batch: seq<T>)
      modifies this
      ensures items == old(items) + batch && closed == old(closed)
    {
      var i := 0;
      while i < |batch|
        invariant i <= |batch| && items == old(items) + batch[..i] && closed == old(closed)
      {
        items := items + [batch[i]];
        i := i + 1;
      }
    }

    method TryPop() returns (item: Option<T>)
      modifies this
      ensures closed == old(closed)
      ensures old(items) == [] ==> item == None && items == []
      ensures old(items) != [] ==> item == Some(old(items)[0]) && items == old(items)[1..]
    {
      if items == [] {
        return None;
      }
      item := Some(items[0]);
      items := items[1..];
    }

    /** Returns from its wait only when there is an item or the queue is closed; items come first. */
    method Pop() returns (item: Option<T>)
      requires items != [] || closed
      modifies this
      ensures closed == old(closed)
      ensures item.None? <==> old(items) == []
      ensures item.None? ==> items == []
      ensures item.Some? ==> item == Some(old(items)[0]) && items == old(items)[1..]
    {
      item := TryPop();
    }

    method Close()
      modifies this
      ensures closed && items == old(items)
    {
      closed := true;
    }
  }
}
