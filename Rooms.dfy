/**
 * Rooms: the connected-component identity shared by every region that can
 * reach every other. A room carries an identifier and the total tile count of
 * the regions that point at it.
 */
module Rooms {

  class Room {
    var size: int
    var id: int

    /**
     * A new, empty room. The source draws `id` from a random generator; here
     * the caller supplies it.
     */
    constructor (id: int)
      ensures size == 0 && this.id == id
    {
      size := 0;
      this.id := id;
    }

    /** Takes over the identity of `other` and adds its size to this room's. */
    method MergeFrom(other: Room)
      modifies this
      ensures id == old(other.id)
      ensures size == old(size) + old(other.size)
      ensures other != this ==> other.id == old(other.id) && other.size == old(other.size)
    {
      id := other.id;
      size := size + other.size;
    }
  }
}
