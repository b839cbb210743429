/** The functions of queue.rs that lock and unlock a queue and post to it from an interrupt, updating it in place. */
module QueueCode {

  import opened Common
  import opened QueueProtocol

  /** The fields of xQUEUE that the protocol is about.  The program counters and the scheduler are not the queue's. */
  class QueueEvents {
    var messagesWaiting: nat
    var waitingToReceive: seq<Task>
    var waitingToSend: seq<Task>
    var txLock: int
    var rxLock: int
    ghost var wokenRecv: set<Task>
    ghost var wokenSend: set<Task>

    ghost function View(rest: Queue): Queue
      reads this
    {
      rest.(messages := messagesWaiting, recv := waitingToReceive, send := waitingToSend, tx := txLock, rx := rxLock,
            wokenRecv := wokenRecv, wokenSend := wokenSend)
    }

    method LockQueue(ghost q: Queue, ghost t: Task)
      requires q == View(q) && Enabled(q, Lock(t))
      modifies `txLock, `rxLock
      ensures View(Step(q, Lock(t))) == Step(q, Lock(t))
    {
      if rxLock == UNLOCKED { rxLock := 0; }
      if txLock == UNLOCKED { txLock := 0; }
    }

    /** The two critical sections of prvUnlockQueue, each with its loop. */
    method UnlockQueueTx(ghost q: Queue)
      requires q == View(q)
      modifies this
      ensures View(DrainTx(q)) == DrainTx(q)
    {
      var lock := txLock;
      ghost var n := 0;
      while lock > 0
        invariant 0 <= n <= |q.recv| && n <= Positive(q.tx) && lock == q.tx - n
        invariant View(q) == q.(recv := q.recv[n..], wokenRecv := q.wokenRecv + set i | 0 <= i < n :: q.recv[i])
      {
        if waitingToReceive == [] { break; }
        wokenRecv := wokenRecv + {waitingToReceive[0]};
        waitingToReceive := waitingToReceive[1..];
        lock := lock - 1;
        n := n + 1;
      }
      txLock := UNLOCKED;
      assert n == Min(Positive(q.tx), |q.recv|);
    }

    method UnlockQueueRx(ghost q: Queue)
      requires q == View(q)
      modifies this
      ensures View(DrainRx(q)) == DrainRx(q)
    {
      var lock := rxLock;
      ghost var n := 0;
      while lock > 0
        invariant 0 <= n <= |q.send| && n <= Positive(q.rx) && lock == q.rx - n
        invariant View(q) == q.(send := q.send[n..], wokenSend := q.wokenSend + set i | 0 <= i < n :: q.send[i])
      {
        if waitingToSend == [] { break; }
        wokenSend := wokenSend + {waitingToSend[0]};
        waitingToSend := waitingToSend[1..];
        lock := lock - 1;
        n := n + 1;
      }
      rxLock := UNLOCKED;
      assert n == Min(Positive(q.rx), |q.send|);
    }

    method GenericSendFromIsr(ghost q: Queue, length: nat, itemSize: nat, tasks: nat, overwriting: bool)
      returns (ok: bool)
      requires q == View(q) && length == q.length && (itemSize > 0 <==> q.hasBytes) && tasks == q.tasks
               && Enabled(q, SendFromIsr(overwriting))
      modifies this
      ensures var r := Step(q, SendFromIsr(overwriting)); View(r) == r
      ensures ok == HasRoom(q, overwriting)
    {
      ok := messagesWaiting < length || overwriting;
      if ok {
        if itemSize > 0 && overwriting && messagesWaiting > 0 { messagesWaiting := messagesWaiting - 1; }
        messagesWaiting := messagesWaiting + 1;
        if txLock == UNLOCKED {
          if waitingToReceive != [] {
            wokenRecv := wokenRecv + {waitingToReceive[0]};
            waitingToReceive := waitingToReceive[1..];
          }
        } else if txLock < tasks {
          txLock := txLock + 1;
        }
      }
    }
  }
}
