/** The two pieces of shared state the block-break handler writes to. Their
    internals (the expectation service's overwrite, consume and expiry
    policy; the recording queue's consumer, batching and persistence) are
    not part of this model: each is seen as the append-only log of the calls
    made to it. */
module Services {
  import opened World
  import opened Activities

  /** The expectation service, seen as the log of `expect` calls: each entry
      says that `cause` is the expected cause of a coming change to `target`. */
  class ExpectationService {
    var log: seq<(Entity, Player)>

    constructor ()
      ensures log == []
    {
      log := [];
    }

    /** Registers `cause` as the expected cause of a change to `target`. */
    method Expect(target: Entity, cause: Player)
      modifies this
      ensures log == old(log) + [(target, cause)]
    {
      log := log + [(target, cause)];
    }
  }

  /** The recording queue, seen as the sequence of activities submitted to it. */
  class RecordingQueue {
    var queue: seq<Activity>

    constructor ()
      ensures queue == []
    {
      queue := [];
    }

    /** Submits `activity` for recording, after everything submitted so far. */
    method AddToQueue(activity: Activity)
      modifies this
      ensures queue == old(queue) + [activity]
    {
      queue := queue + [activity];
    }
  }
}
