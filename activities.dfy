/** Actions and activities: the immutable records the handler builds and
    hands to the recording queue. The action registry is a pure factory. */
module Activities {
  import opened World

  /** The action verbs this model needs. */
  datatype ActionType = BlockBreak

  /** An action: what changed, with the snapshot of the block it was made
      from (enough to reverse the change later). */
  datatype Action = BlockAction(actionType: ActionType, block: Block)

  /** One recorded change: what happened, where, and who caused it. The
      builder's timestamp is not part of this model. */
  datatype Activity = Activity(action: Action, location: Location, cause: Player)

  /** The action registry's factory for block actions. */
  function CreateBlockAction(actionType: ActionType, block: Block): Action
  {
    BlockAction(actionType, block)
  }

  /** The activity recorded when `player` breaks `block`. */
  function BlockBreakActivity(block: Block, player: Player): (a: Activity)
    ensures RecordsBreak(a, block, player)
  {
    Activity(CreateBlockAction(BlockBreak, block), block.location, player)
  }

  /** True when `a` records `block` broken by `player`: a block-break action
      built from that block, at that block's location, caused by `player`. */
  predicate RecordsBreak(a: Activity, block: Block, player: Player)
  {
    a.action.actionType == BlockBreak && a.action.block == block &&
    a.location == block.location && a.cause == player
  }

  /** The activities recorded, in order, when `player` breaks each of `blocks`
      in turn. */
  function BreakActivities(blocks: seq<Block>, player: Player): (r: seq<Activity>)
    ensures |r| == |blocks|
    ensures forall i :: 0 <= i < |blocks| ==> RecordsBreak(r[i], blocks[i], player)
  {
    if blocks == [] then []
    else BreakActivities(blocks[..|blocks| - 1], player) + [BlockBreakActivity(blocks[|blocks| - 1], player)]
  }

  /** The block each activity was built from; `BlocksOfBreakActivities` shows it
      reads back the blocks `BreakActivities` was given. */
  function BlocksOf(activities: seq<Activity>): seq<Block>
  {
    if activities == [] then []
    else BlocksOf(activities[..|activities| - 1]) + [activities[|activities| - 1].action.block]
  }

  /** Recording a sequence of blocks in two parts records the same activities
      as recording it in one go. */
  lemma BreakActivitiesAppend(a: seq<Block>, b: seq<Block>, player: Player)
    ensures BreakActivities(a + b, player) == BreakActivities(a, player) + BreakActivities(b, player)
  {
  }

  /** The blocks can be read back from the activities recorded for them. */
  lemma {:induction false} BlocksOfBreakActivities(blocks: seq<Block>, player: Player)
    ensures BlocksOf(BreakActivities(blocks, player)) == blocks
  {
    if blocks != [] {
      var n := |blocks| - 1;
      var r := BreakActivities(blocks, player);
      assert r[..|r| - 1] == BreakActivities(blocks[..n], player);
      BlocksOfBreakActivities(blocks[..n], player);
      assert blocks == blocks[..n] + [blocks[n]];
    }
  }
}
