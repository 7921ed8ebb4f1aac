/** The block-break handler of the change-recording pipeline. On a block
    break it normalises the block to the root of its structure, registers
    the player as the expected cause of every nearby hanging entity's coming
    break, and, when block breaks are recorded, queues one block-break
    activity per detaching block, per falling block and for the root block,
    in that order. */
module Listeners {
  import opened World
  import opened Activities
  import opened Services

  /** The two action policies the handler consults. */
  datatype ActionsConfig = ActionsConfig(hangingBreak: bool, blockBreak: bool)

  /** What the host reports: who broke which block. */
  datatype BlockBreakEvent = BlockBreakEvent(player: Player, block: Block)

  /** Everything one handler run appends: expectation registrations and
      queued activities. */
  datatype Effects = Effects(expectations: seq<(Entity, Player)>, activities: seq<Activity>)

  /** One registration per hanging entity, each naming `player` as the cause,
      in the order the entities were found. */
  function ExpectationsFor(hanging: seq<Entity>, player: Player): (r: seq<(Entity, Player)>)
    ensures |r| == |hanging|
    ensures forall i :: 0 <= i < |hanging| ==> r[i] == (hanging[i], player)
  {
    if hanging == [] then []
    else ExpectationsFor(hanging[..|hanging| - 1], player) + [(hanging[|hanging| - 1], player)]
  }

  /** The blocks recorded for a break of `root`: the detaching blocks, then the
      falling blocks, then the root itself. */
  function RecordedBlocks(world: World, root: Block): seq<Block>
  {
    world.detachables(root) + world.gravity(root) + [root]
  }

  /** What a handler run appends to the expectation log and to the queue. */
  function Handle(config: ActionsConfig, world: World, event: BlockBreakEvent): Effects
  {
    var root := world.rootBlock(event.block);
    Effects(
      if config.hangingBreak
      then ExpectationsFor(world.hangingEntities(root.location, HangingRadius), event.player)
      else [],
      if config.blockBreak
      then BreakActivities(RecordedBlocks(world, root), event.player)
      else [])
  }

  /** With block breaks recorded, the handler's activities are those of the
      detaching blocks, then of the falling blocks, then of the root. */
  lemma HandleActivities(config: ActionsConfig, world: World, event: BlockBreakEvent)
    requires config.blockBreak
    ensures var root := world.rootBlock(event.block);
            Handle(config, world, event).activities
            == BreakActivities(world.detachables(root), event.player)
               + BreakActivities(world.gravity(root), event.player)
               + [BlockBreakActivity(root, event.player)]
  {
  }

  /** Appending three sequences one after another appends their concatenation. */
  lemma AppendThree<T>(s: seq<T>, a: seq<T>, b: seq<T>, c: seq<T>)
    ensures s + a + b + c == s + (a + b + c)
  {
  }

  class BlockBreakListener {
    const prismConfig: ActionsConfig
    const expectationService: ExpectationService
    /** The recording queue the handler submits to (a static singleton in the
        original; here an object handed to the listener). */
    const recordingQueue: RecordingQueue

    constructor (prismConfig: ActionsConfig, expectationService: ExpectationService, recordingQueue: RecordingQueue)
      ensures this.prismConfig == prismConfig
      ensures this.expectationService == expectationService
      ensures this.recordingQueue == recordingQueue
    {
      this.prismConfig := prismConfig;
      this.expectationService := expectationService;
      this.recordingQueue := recordingQueue;
    }

    /** Handles a block break: registers the hanging-entity expectations, then
        (unless block breaks are not recorded) queues the break activities of
        the detaching blocks, the falling blocks and the root block. Every
        lookup and record uses the root of the broken block's structure. */
    method OnBlockBreak(world: World, event: BlockBreakEvent)
      modifies expectationService, recordingQueue
      ensures expectationService.log == old(expectationService.log) + Handle(prismConfig, world, event).expectations
      ensures recordingQueue.queue == old(recordingQueue.queue) + Handle(prismConfig, world, event).activities
      ensures old(expectationService.log) <= expectationService.log
      ensures old(recordingQueue.queue) <= recordingQueue.queue
    {
      var player := event.player;
      var block := world.rootBlock(event.block);

      if prismConfig.hangingBreak {
        ExpectHanging(world.hangingEntities(block.location, HangingRadius), player);
      }

      if !prismConfig.blockBreak {
        return;
      }

      ghost var queued := recordingQueue.queue;
      RecordBlockBreaks(world.detachables(block), player);
      RecordBlockBreaks(world.gravity(block), player);
      RecordBlockBreak(block, player);
      HandleActivities(prismConfig, world, event);
      AppendThree(queued, BreakActivities(world.detachables(block), player),
                  BreakActivities(world.gravity(block), player), [BlockBreakActivity(block, player)]);
    }

    /** The hanging-entity loop of the handler: registers `player` as the
        expected cause of each entity's break, in order. */
    method ExpectHanging(hanging: seq<Entity>, player: Player)
      modifies expectationService
      ensures expectationService.log == old(expectationService.log) + ExpectationsFor(hanging, player)
    {
      for i := 0 to |hanging|
        invariant expectationService.log == old(expectationService.log) + ExpectationsFor(hanging[..i], player)
      {
        expectationService.Expect(hanging[i], player);
      }
      assert hanging[..|hanging|] == hanging;
    }

    /** The detaching-block and falling-block loops of the handler: records
        each block broken by `player`, in order. */
    method RecordBlockBreaks(blocks: seq<Block>, player: Player)
      modifies recordingQueue
      ensures recordingQueue.queue == old(recordingQueue.queue) + BreakActivities(blocks, player)
    {
      for i := 0 to |blocks|
        invariant recordingQueue.queue == old(recordingQueue.queue) + BreakActivities(blocks[..i], player)
      {
        RecordBlockBreak(blocks[i], player);
      }
      assert blocks[..|blocks|] == blocks;
    }

    /** Queues the activity of `player` breaking `block`, after everything
        already queued. */
    method RecordBlockBreak(block: Block, player: Player)
      modifies recordingQueue
      ensures recordingQueue.queue == old(recordingQueue.queue) + [BlockBreakActivity(block, player)]
    {
      var action := CreateBlockAction(BlockBreak, block);
      var activity := Activity(action, block.location, player);
      recordingQueue.AddToQueue(activity);
    }
  }

  /** The hanging-break policy alone decides whether expectations are
      registered: when it is on, exactly one registration per hanging entity
      found within the radius of the root block, in the order found, each
      naming the player; when it is off, none. */
  lemma HangingExpectations(config: ActionsConfig, world: World, event: BlockBreakEvent)
    ensures var root := world.rootBlock(event.block);
            var hanging := world.hangingEntities(root.location, HangingRadius);
            var registered := Handle(config, world, event).expectations;
            (config.hangingBreak ==>
               |registered| == |hanging| &&
               forall i :: 0 <= i < |hanging| ==> registered[i] == (hanging[i], event.player)) &&
            (!config.hangingBreak ==> registered == [])
  {
  }

  /** Expectation registration happens before, and independently of, the
      block-break policy check; with block breaks not recorded, nothing is
      queued. */
  lemma BlockBreakPolicyGating(config: ActionsConfig, world: World, event: BlockBreakEvent, blockBreak: bool)
    ensures Handle(config.(blockBreak := blockBreak), world, event).expectations
            == Handle(config, world, event).expectations
    ensures !config.blockBreak ==> Handle(config, world, event).activities == []
  {
  }

  /** With block breaks recorded, the handler queues one activity per
      detaching block, then one per falling block, then one for the root
      block, each a block-break of its own block at that block's location,
      caused by the player. */
  lemma ActivityLayout(config: ActionsConfig, world: World, event: BlockBreakEvent)
    requires config.blockBreak
    ensures var root := world.rootBlock(event.block);
            var detachables, fallers := world.detachables(root), world.gravity(root);
            var queued := Handle(config, world, event).activities;
            |queued| == |detachables| + |fallers| + 1 &&
            (forall i :: 0 <= i < |detachables| ==> RecordsBreak(queued[i], detachables[i], event.player)) &&
            (forall j :: 0 <= j < |fallers| ==> RecordsBreak(queued[|detachables| + j], fallers[j], event.player)) &&
            RecordsBreak(queued[|queued| - 1], root, event.player)
  {
  }

  /** The queued activities name exactly the recorded blocks, in order: the
      detaching blocks, the falling blocks, then the root block. */
  lemma QueuedBlocks(config: ActionsConfig, world: World, event: BlockBreakEvent)
    requires config.blockBreak
    ensures var root := world.rootBlock(event.block);
            BlocksOf(Handle(config, world, event).activities)
            == world.detachables(root) + world.gravity(root) + [root]
  {
    var root := world.rootBlock(event.block);
    BlocksOfBreakActivities(RecordedBlocks(world, root), event.player);
  }

  /** The handler sees the broken block only through the root of its
      structure: two events by the same player whose blocks share a root have
      the same effects, whichever cell of the structure was broken. */
  lemma OnlyRootMatters(config: ActionsConfig, world: World, e1: BlockBreakEvent, e2: BlockBreakEvent)
    requires e1.player == e2.player
    requires world.rootBlock(e1.block) == world.rootBlock(e2.block)
    ensures Handle(config, world, e1) == Handle(config, world, e2)
  {
  }

  /** A single-cell root block with two attached signs and one block resting
      on it, broken by a player with both policies on: four activities, signs first,
      then the falling block, then the root, all caused by that player; the
      painting hanging on the root is expected to break by that player. */
  lemma BreakWithTwoSignsAndOneFaller(player: Player)
    ensures var root := Block(Location(0, 64, 0), "oak_planks");
            var sign1 := Block(Location(1, 64, 0), "oak_wall_sign");
            var sign2 := Block(Location(-1, 64, 0), "oak_wall_sign");
            var sand := Block(Location(0, 65, 0), "sand");
            var painting := Entity(7);
            var world := World(
              b => b,
              (l, r) => if l == root.location && r == HangingRadius then [painting] else [],
              b => if b == root then [sign1, sign2] else [],
              b => if b == root then [sand] else []);
            var effects := Handle(ActionsConfig(true, true), world, BlockBreakEvent(player, root));
            effects.expectations == [(painting, player)] &&
            |effects.activities| == 4 &&
            BlocksOf(effects.activities) == [sign1, sign2, sand, root] &&
            (forall a :: a in effects.activities ==> a.cause == player && a.action.actionType == BlockBreak) &&
            [effects.activities[0].location, effects.activities[1].location,
             effects.activities[2].location, effects.activities[3].location]
            == [sign1.location, sign2.location, sand.location, root.location]
  {
    var root := Block(Location(0, 64, 0), "oak_planks");
    var sign1 := Block(Location(1, 64, 0), "oak_wall_sign");
    var sign2 := Block(Location(-1, 64, 0), "oak_wall_sign");
    var sand := Block(Location(0, 65, 0), "sand");
    var painting := Entity(7);
    var world := World(
      b => b,
      (l, r) => if l == root.location && r == HangingRadius then [painting] else [],
      b => if b == root then [sign1, sign2] else [],
      b => if b == root then [sand] else []);
    var event := BlockBreakEvent(player, root);
    QueuedBlocks(ActionsConfig(true, true), world, event);
    assert RecordedBlocks(world, root) == [sign1, sign2, sand, root];
  }
}
