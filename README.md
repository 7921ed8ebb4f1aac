# Prism block-break recording, modelled in Dafny

Prism records changes to a game world so they can be inspected and rolled
back. This project models its block-break handler, `BlockBreakListener`.
When a player breaks a block, the handler does four things:

1. It normalises the block to the root cell of its structure (the primary
   cell of a bed or a door, or else the block itself).
2. If the hanging-break policy is on, it registers the player as the
   expected cause of every hanging entity near that root. Hanging entities
   include paintings and item frames. The lookup radius is 2.
3. If the block-break policy is off, it stops there.
4. Otherwise it queues one `BLOCK_BREAK` activity for each block that will
   detach, then one for each block that will fall, then one for the root
   block. Every activity is caused by the player.

Files:

- `world.dfy` (module `World`): locations, block handles, entities, players,
  and the spatial expansion utilities. These are `rootBlock`,
  `hangingEntities`, `detachables` and `gravity`. A `World` value bundles
  them as total functions over one immutable snapshot of the world.
- `activities.dfy` (module `Activities`): actions and activities. It holds
  the action registry's factory, the activity built for one broken block,
  and `BreakActivities`, the activities for a sequence of blocks. It also
  holds `BlocksOf`, which reads the blocks back from activities.
- `services.dfy` (module `Services`): the expectation service and the
  recording queue. Each is a class whose state is the append-only log of
  the calls made to it.
- `listener.dfy` (module `Listeners`): the listener class and its handler.
  It also holds `Handle`, a pure function giving exactly what one handler
  run appends to each log, and the lemmas about the handler.

`OnBlockBreak` is proved to append exactly `Handle(...)` to the expectation
log and to the queue. The lemmas then state what `Handle` promises: the
gating order, the counts, the recording order, cause attribution, and use
of the root block only. In the original, the recording queue is a static
singleton. Here it is an object handed to the listener's constructor.
Each of the handler's three loops is a method of the listener:
`ExpectHanging` for the hanging entities, and `RecordBlockBreaks` for the
detaching blocks and for the falling blocks. `OnBlockBreak` calls them in
the source's order.

The code registers hanging-entity expectations before it checks the
block-break policy. It does so whether that policy is on or off. The
model follows the code: `BlockBreakPolicyGating` proves that expectations
do not depend on the block-break flag.

## Model

| member | source | states |
|---|---|---|
| `Listeners.BlockBreakListener.OnBlockBreak` | prism/src/main/java/network/darkhelmet/prism/listeners/BlockBreakListener.java:83-111 | the handler appends exactly `Handle`'s expectations to the expectation log and exactly `Handle`'s activities to the queue; both logs keep their old contents as a prefix |
| `Listeners.BlockBreakListener.ExpectHanging` | prism/src/main/java/network/darkhelmet/prism/listeners/BlockBreakListener.java:89-91 | registering the hanging entities appends one `(entity, player)` per entity, in the order found |
| `Listeners.BlockBreakListener.RecordBlockBreaks` | prism/src/main/java/network/darkhelmet/prism/listeners/BlockBreakListener.java:100-107 | recording a sequence of blocks appends one block-break activity per block, in order, to the queue |
| `Listeners.BlockBreakListener.RecordBlockBreak` | prism/src/main/java/network/darkhelmet/prism/listeners/BlockBreakListener.java:119-128 | recording one block appends exactly one activity after the existing queue: a block-break of that block at its location, caused by the player |
| `Services.ExpectationService.Expect` | prism/src/main/java/network/darkhelmet/prism/listeners/BlockBreakListener.java:90 | an `expect` call is logged after every earlier one |
| `Services.RecordingQueue.AddToQueue` | prism/src/main/java/network/darkhelmet/prism/listeners/BlockBreakListener.java:127 | a submitted activity goes after everything already queued |
| `Activities.BlockBreakActivity` | prism/src/main/java/network/darkhelmet/prism/listeners/BlockBreakListener.java:121-125 | the activity built for a broken block has a `BLOCK_BREAK` action made from that block, the block's location, and the player as cause |
| `Activities.BreakActivities` | prism/src/main/java/network/darkhelmet/prism/listeners/BlockBreakListener.java:100-110 | recording a sequence of blocks gives one activity per block; activity `i` records block `i`, at its location, caused by the player |
| `Activities.BreakActivitiesAppend` | prism/src/main/java/network/darkhelmet/prism/listeners/BlockBreakListener.java:100-110 | recording blocks in two consecutive runs gives the same activities as recording them in one run |
| `Activities.BlocksOfBreakActivities` | prism/src/main/java/network/darkhelmet/prism/listeners/BlockBreakListener.java:121-125 | the recorded blocks can be read back from the activities, in order: each activity is built from its own block |
| `Listeners.ExpectationsFor` | prism/src/main/java/network/darkhelmet/prism/listeners/BlockBreakListener.java:89-91 | one registration per hanging entity, in order, each naming the player as cause |
| `Listeners.HandleActivities` | prism/src/main/java/network/darkhelmet/prism/listeners/BlockBreakListener.java:100-110 | with block breaks recorded, the queued activities are those of the detaching blocks, then those of the falling blocks, then the root block's |
| `Listeners.HangingExpectations` | prism/src/main/java/network/darkhelmet/prism/listeners/BlockBreakListener.java:88-92 | with the hanging-break policy on, exactly one registration `(e, player)` per entity `e` returned by the radius-2 hanging lookup at the root's location, in order; with it off, none |
| `Listeners.BlockBreakPolicyGating` | prism/src/main/java/network/darkhelmet/prism/listeners/BlockBreakListener.java:88-97 | the registrations do not depend on the block-break policy; with that policy off, nothing is queued |
| `Listeners.ActivityLayout` | prism/src/main/java/network/darkhelmet/prism/listeners/BlockBreakListener.java:100-110 | with block breaks recorded, exactly `detachables + fallers + 1` activities are queued: detachables first, then fallers, root last; each is a block-break of its own block at its location, caused by the player |
| `Listeners.QueuedBlocks` | prism/src/main/java/network/darkhelmet/prism/listeners/BlockBreakListener.java:100-110 | the queued activities name exactly the detaching blocks, the falling blocks and the root block, in that order |
| `Listeners.OnlyRootMatters` | prism/src/main/java/network/darkhelmet/prism/listeners/BlockBreakListener.java:85-110 | two breaks by the same player of blocks with the same root have the same effects: the lookups and records depend only on the root |
| `Listeners.BreakWithTwoSignsAndOneFaller` | prism/src/main/java/network/darkhelmet/prism/listeners/BlockBreakListener.java:83-111 | the worked example: two signs, one resting block and the root give four activities in that order, at their own locations, caused by the player, plus one expectation for the painting on the root |

## Left out

- Host event dispatch is not modelled. This covers the `@EventHandler(priority = MONITOR, ignoreCancelled = true)` annotation and the `Listener` interface. A cancelled break never reaches the handler, so the model has no cancelled flag.
- The dependency-injection wiring is not modelled. The Java constructor stores the configuration, the action registry and the expectation service. `Listeners.BlockBreakListener.constructor` stores the configuration, the expectation service and the recording queue instead: the registry is the pure function `Activities.CreateBlockAction`, and the queue, a static singleton in the original, is handed in as an object.
- `BlockUtils.rootBlock`, `BlockUtils.detachables`, `BlockUtils.gravity` and `EntityUtils.hangingEntities` are not part of this model. They are arbitrary functions in a `World` value. No breadth-first order, deduplication or radius semantics is assumed of them.
- The expectation service's internals are not part of this model: overwrite policy, consumption, expiry and thread safety. Only the `expect` calls are logged, in order.
- The recording queue's consumer is not modelled. This covers batching, retry, persistence and thread safety. The queue is the sequence of submitted activities.
- A location is only its block coordinates. The world (dimension) a Bukkit location also carries is not modelled, so blocks at the same coordinates with the same material in different worlds are equal here. No proved property depends on this.
- Configuration loading is not modelled. The two policies are plain booleans.
- The activity builder's timestamp is not modelled. The action registry is a pure factory of `(BLOCK_BREAK, block)` actions. The block's state snapshot is reduced to its material name.
