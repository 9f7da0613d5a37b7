/** Waking the terminal loop: producers push an event and ring, the loop clears its doorbell, drains the
    buffer until it is empty and blocks (source/core/core/core.c:117-136, source/core/event/event.c:45-85,
    source/core/op/op.c:57-58, source/cli/host/host.c:47-69, source/cli/main.c:10-26). Every method is one
    atomic step of one thread; any interleaving of them may happen. */
module Wake {

  /** A producer between its push and its wake call, and between winning the flag and making the call. */
  datatype Producer = Resting | Pushed | Claimed

  /** The thread that runs the operation: done, flag stored, call made. */
  datatype Op = Working | Finished | Stored | Rung

  datatype Handler = Quiet | Raised

  datatype Consumer = Clearing | Loading | Draining | Showing | Checking | Waiting | Gone

  lemma StillThere(ps: seq<Producer>, i: nat, x: Producer, p: Producer)
    requires i < |ps| && p in ps && (ps[i] != p || x == p)
    ensures p in ps[i := x]
  {
    var j :| 0 <= j < |ps| && ps[j] == p;
    assert ps[i := x][j] == if j == i then x else p;
  }

  class System {
    const handoff: bool  // the terminal was handed to another process: the loop no longer drains
    var signaled: bool
    var doorbell: bool
    var buffer: seq<int>
    var drained: seq<int>
    ghost var pushed: seq<int>
    var progress: nat
    var shown: nat
    var producers: seq<Producer>
    var op: Op
    var handler: Handler
    var interrupted: bool
    var cancelled: bool
    var consumer: Consumer

    predicate Done()
      reads this
    {
      !op.Working?
    }

    /** The doorbell is set, or someone is about to set it. */
    predicate Ringing()
      reads this
    {
      doorbell || Claimed in producers || op.Stored?
    }

    /** The loop has emptied the buffer in this round. */
    predicate HasDrained()
      reads this
    {
      !handoff && (consumer.Showing? || consumer.Checking? || consumer.Waiting?)
    }

    ghost predicate Safe()
      reads this
    {
      && pushed == drained + buffer
      && (HasDrained() && signaled ==> Ringing())
      && (HasDrained() && buffer != [] ==> Ringing() || Pushed in producers)
      && (HasDrained() && !consumer.Showing? && progress != shown ==> Ringing() || Pushed in producers)
      && (consumer.Waiting? && Done() ==> doorbell || op.Finished? || op.Stored?)
      && (consumer !in {Clearing, Loading, Gone} && interrupted && !cancelled ==> doorbell || handler.Raised?)
    }

    constructor (producers: nat, handoff: bool)
      ensures Safe() && this.handoff == handoff && |this.producers| == producers
    {
      this.handoff := handoff;
      signaled, doorbell, buffer, drained, pushed, progress, shown := false, false, [], [], [], 0, 0;
      this.producers := seq(producers, i => Resting);
      op, handler, interrupted, cancelled, consumer := Working, Quiet, false, false, Clearing;
    }

    // -------------------------------------------------------------- producers

    /** `spn_event_buffer_push`, under the mutex. */
    method Push(i: nat, event: int)
      requires Safe() && i < |producers| && producers[i].Resting?
      modifies this`buffer, this`producers, this`pushed
      ensures Safe() && pushed == old(pushed) + [event] && buffer == old(buffer) + [event]
      ensures producers == old(producers)[i := Pushed]
    {
      pushed := pushed + [event];
      buffer := buffer + [event];
      assert drained + buffer == pushed;
      if Claimed in producers {
        StillThere(producers, i, Pushed, Claimed);
      }
      producers := producers[i := Pushed];
      assert producers[i] == Pushed;
    }

    /** A progress counter goes up. */
    method Count(i: nat)
      requires Safe() && i < |producers| && producers[i].Resting?
      modifies this`progress, this`producers
      ensures Safe() && progress == old(progress) + 1 && producers == old(producers)[i := Pushed]
    {
      progress := progress + 1;
      if Claimed in producers {
        StillThere(producers, i, Pushed, Claimed);
      }
      producers := producers[i := Pushed];
      assert producers[i] == Pushed;
    }

    /** `spn_wake_ring`: only the one that flips the flag makes the call. */
    method TryClaim(i: nat)
      requires Safe() && i < |producers| && producers[i].Pushed?
      modifies this`signaled, this`producers
      ensures Safe() && signaled && producers == old(producers)[i := if old(signaled) then Resting else Claimed]
    {
      if Claimed in producers {
        StillThere(producers, i, if signaled then Resting else Claimed, Claimed);
      }
      if signaled {
        producers := producers[i := Resting];
      } else {
        signaled := true;
        producers := producers[i := Claimed];
        assert producers[i] == Claimed;
      }
    }

    method MakeCall(i: nat)
      requires Safe() && i < |producers| && producers[i].Claimed?
      modifies this`doorbell, this`producers
      ensures Safe() && doorbell && producers == old(producers)[i := Resting]
    {
      doorbell := true;
      producers := producers[i := Resting];
    }

    // -------------------------------------------------------------- the operation and the interrupt handler

    method FinishOp()
      requires Safe() && op.Working?
      modifies this`op
      ensures Safe() && op.Finished?
    {
      op := Finished;
    }

    /** `spn_wake_pulse`: the flag is stored whatever it was, and the call is always made. */
    method StoreFlag()
      requires Safe() && op.Finished?
      modifies this`op, this`signaled
      ensures Safe() && signaled && op.Stored?
    {
      signaled := true;
      op := Stored;
    }

    method PulseCall()
      requires Safe() && op.Stored?
      modifies this`op, this`doorbell
      ensures Safe() && doorbell && op.Rung?
    {
      doorbell := true;
      op := Rung;
    }

    method Interrupt()
      requires Safe() && handler.Quiet?
      modifies this`handler, this`interrupted
      ensures Safe() && interrupted && handler.Raised?
    {
      interrupted := true;
      handler := Raised;
    }

    method InterruptCall()
      requires Safe() && handler.Raised?
      modifies this`handler, this`doorbell
      ensures Safe() && doorbell && handler.Quiet?
    {
      doorbell := true;
      handler := Quiet;
    }

    // -------------------------------------------------------------- the loop

    method Clear()
      requires Safe() && consumer.Clearing?
      modifies this`doorbell, this`consumer
      ensures Safe() && !doorbell && consumer.Loading?
    {
      doorbell := false;
      consumer := Loading;
    }

    method LoadInterrupt()
      requires Safe() && consumer.Loading?
      modifies this`cancelled, this`consumer
      ensures Safe() && (cancelled <==> old(cancelled) || interrupted)
      ensures consumer == if handoff then Checking else Draining
    {
      if interrupted {
        cancelled := true;
      }
      consumer := if handoff then Checking else Draining;
    }

    /** `spn_ctx_drain`, under the mutex: an empty buffer rearms the flag. */
    method Drain()
      requires Safe() && consumer.Draining?
      modifies this`buffer, this`drained, this`signaled, this`consumer
      ensures Safe() && drained + buffer == old(drained + buffer)
      ensures old(buffer) == [] ==> !signaled && consumer.Showing? && buffer == [] && drained == old(drained)
      ensures old(buffer) != [] ==>
        && drained == old(drained) + [old(buffer)[0]] && buffer == old(buffer)[1..]
        && consumer.Draining? && signaled == old(signaled)
    {
      if buffer == [] {
        signaled := false;
        consumer := Showing;
        return;
      }
      assert drained + buffer == (drained + [buffer[0]]) + buffer[1..];
      drained := drained + [buffer[0]];
      buffer := buffer[1..];
    }

    method Show()
      requires Safe() && consumer.Showing?
      modifies this`shown, this`consumer
      ensures Safe() && shown == progress && consumer.Checking?
    {
      shown := progress;
      consumer := Checking;
    }

    /** Leaves when the operation is done; otherwise blocks, unless a prompt wants input. */
    method Check(wantsInput: bool)
      requires Safe() && consumer.Checking?
      modifies this`consumer
      ensures Safe() && (consumer.Gone? <==> Done())
      ensures consumer.Waiting? <==> !Done() && !wantsInput
    {
      consumer := if Done() then Gone else if wantsInput then Clearing else Waiting;
    }

    method Unblock()
      requires Safe() && consumer.Waiting? && doorbell
      modifies this`consumer
      ensures Safe() && consumer.Clearing?
    {
      consumer := Clearing;
    }

    // -------------------------------------------------------------- no lost wakeup

    /** When the loop is blocked and there is something to do, the doorbell is set or someone is still
        between acting and ringing. */
    lemma NoLostWakeup()
      requires Safe() && consumer.Waiting?
      ensures !handoff && (buffer != [] || progress != shown) ==>
        doorbell || Pushed in producers || Claimed in producers || op.Stored?
      ensures Done() ==> doorbell || op.Finished? || op.Stored?
      ensures interrupted && !cancelled ==> doorbell || handler.Raised?
    {
    }

    /** Once every other thread has come to rest, a loop that stays blocked has nothing to do, and has
        drained every event in the order it was pushed. */
    lemma BlockedMeansIdle()
      requires Safe() && consumer.Waiting? && !doorbell
      requires (forall i :: 0 <= i < |producers| ==> producers[i].Resting?) && (op.Working? || op.Rung?)
      requires handler.Quiet?
      ensures !Done() && (interrupted ==> cancelled)
      ensures !handoff ==> drained == pushed && shown == progress
    {
      assert Pushed !in producers && Claimed !in producers;
      assert buffer == [] ==> drained + buffer == drained;
    }

    /** Any number of steps of any threads, in any order. */
    method AnyRun()
      requires Safe()
      modifies this
      ensures Safe()
    {
      var steps: nat := *;
      while steps > 0
        invariant Safe()
      {
        var thread: int, event: int, i: int, flag: bool := *, *, *, *;
        if thread == 0 {
          ConsumerStep(flag);
        } else if thread == 1 {
          OpStep();
        } else if thread == 2 {
          if handler.Quiet? { Interrupt(); } else { InterruptCall(); }
        } else if 0 <= i < |producers| {
          ProducerStep(i, event, flag);
        }
        steps := steps - 1;
      }
    }

    /** How far the loop is from blocking, if nobody else does anything. */
    ghost function Way(): nat
      reads this
    {
      var round := 6 + |buffer|;
      match consumer
      case Waiting => if doorbell then 2 * round else 0
      case Clearing => 5 + |buffer|
      case Loading => 4 + |buffer| + Again()
      case Draining => 3 + |buffer| + Again()
      case Showing => 2 + Again()
      case Checking => 1 + Again()
      case Gone => 0
    }

    /** A doorbell that rang since it was cleared costs another round. */
    ghost function Again(): nat
      reads this
    {
      if doorbell then 12 + 2 * |buffer| else 0
    }

    /** One step of the loop brings it nearer to blocking. */
    method ConsumerStep(wantsInput: bool)
      requires Safe()
      modifies this
      ensures Safe() && producers == old(producers) && op == old(op)
      ensures handler == old(handler) && progress == old(progress)
      ensures pushed == old(pushed) && (doorbell ==> old(doorbell)) && drained + buffer == old(drained + buffer)
      ensures !wantsInput && !old(Blocked()) ==> Way() < old(Way())
      ensures old(Blocked()) ==> Blocked()
      ensures consumer != old(consumer) ==> (consumer.Gone? ==> Done()) && (consumer.Waiting? ==> !Done())
      ensures !handoff && old(Fresh()) && !old(Blocked()) ==> Fresh()
    {
      match consumer {
        case Clearing => Clear();
        case Loading => LoadInterrupt();
        case Draining => Drain();
        case Showing => Show();
        case Checking => Check(wantsInput);
        case Waiting => if doorbell { Unblock(); }
        case Gone =>
      }
    }

    /** The loop rests: it waits for a doorbell that is not set, or has left. */
    predicate Blocked()
      reads this
    {
      consumer.Gone? || (consumer.Waiting? && !doorbell)
    }

    /** Behind the drain of a round the buffer is empty, and behind the show all progress shown. */
    predicate Fresh()
      reads this
    {
      && (consumer.Showing? || consumer.Checking? || Blocked() ==> buffer == [])
      && (consumer.Checking? || Blocked() ==> shown == progress)
    }

    /** Left alone, the loop comes to rest, and by then it has drained every event in the order it was pushed
        and shown all progress; it has left exactly when the operation is done and it got to see that. */
    method RunAlone()
      requires Safe() && consumer.Clearing?
      modifies this
      ensures Safe() && Blocked()
      ensures !handoff ==> drained == old(pushed) && shown == old(progress)
      ensures consumer.Gone? <==> old(Done())
    {
      assert Fresh();
      while !Blocked()
        invariant Safe() && pushed == old(pushed) && progress == old(progress) && op == old(op)
        invariant !handoff ==> Fresh()
        invariant consumer.Gone? ==> Done()
        invariant consumer.Waiting? ==> !Done()
        decreases Way()
      {
        ConsumerStep(false);
      }
      assert buffer == [] ==> drained + buffer == drained;
    }

    method OpStep()
      requires Safe()
      modifies this
      ensures Safe()
    {
      match op {
        case Working => FinishOp();
        case Finished => StoreFlag();
        case Stored => PulseCall();
        case Rung =>
      }
    }

    method ProducerStep(i: nat, event: int, counts: bool)
      requires Safe() && i < |producers|
      modifies this
      ensures Safe()
    {
      match producers[i] {
        case Resting => if counts { Count(i); } else { Push(i, event); }
        case Pushed => TryClaim(i);
        case Claimed => MakeCall(i);
      }
    }
  }
}
