/** NetworkManager/tsqueue.h: the locked double-ended queue, every locked region one atomic method. */
module TsQueues {

  class TsQueue<T> {
    var deqQueue: seq<T>

    constructor ()
      ensures deqQueue == []
    {
      deqQueue := [];
    }

    method PushBack(item: T)
      modifies this
      ensures deqQueue == old(deqQueue) + [item]
    {
      deqQueue := deqQueue + [item];
    }

    method PopFront() returns (item: T)
      requires deqQueue != []
      modifies this
      ensures [item] + deqQueue == old(deqQueue)
    {
      item := deqQueue[0];
      deqQueue := deqQueue[1..];
    }

    method Front() returns (item: T)
      requires deqQueue != []
      ensures item == deqQueue[0]
    {
      item := deqQueue[0];
    }

    method Empty() returns (empty: bool)
      ensures empty <==> deqQueue == []
    {
      empty := |deqQueue| == 0;
    }

    method Clear()
      modifies this
      ensures deqQueue == []
    {
      deqQueue := [];
    }
  }
}
