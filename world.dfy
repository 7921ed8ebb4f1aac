/** The parts of the game world the block-break handler reads: coordinates,
    block handles, entities, players, and the spatial expansion utilities
    (BlockUtils and EntityUtils), whose internals are not part of this model.
    The utilities are carried as total functions over an immutable snapshot
    of the world, so every handler run is deterministic given that snapshot. */
module World {

  /** A block coordinate. */
  datatype Location = Location(x: int, y: int, z: int)

  /** A transient handle on a world cell: where it is and what it holds. */
  datatype Block = Block(location: Location, material: string)

  /** An opaque live entity, such as a hanging painting or item frame. */
  datatype Entity = Entity(uuid: nat)

  /** The player that caused an event. */
  datatype Player = Player(uuid: nat, name: string)

  /** The radius within which hanging entities are looked up around the
      broken block. */
  const HangingRadius: int := 2

  /** A snapshot of the spatial expansion utilities:
      - rootBlock: the primary cell of a multi-cell structure (a bed, a door),
        or the block itself;
      - hangingEntities: the hanging entities attached near a location,
        within a radius;
      - detachables: the blocks that detach once the given block is gone;
      - gravity: the blocks that fall once the given block is gone. */
  datatype World = World(
    rootBlock: Block -> Block,
    hangingEntities: (Location, int) -> seq<Entity>,
    detachables: Block -> seq<Block>,
    gravity: Block -> seq<Block>)
}
