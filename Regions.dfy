/**
 * Regions: the connected pieces of one chunk. A region knows its tile count,
 * the room it belongs to and the keys of the links that touch it; the links
 * themselves live in a dictionary shared by the whole grid.
 */
module Regions {
  import opened LinkUtils
  import opened Rooms

  /** The grid-wide dictionary from link key to the two regions the link joins. */
  class LinkCache {
    var entries: map<UInt32, LinkPair<Region>>

    /** A new, empty dictionary. */
    constructor ()
      ensures entries == map[]
    {
      entries := map[];
    }
  }

  /** Every region named by some entry of a link dictionary. */
  ghost function Endpoints(entries: map<UInt32, LinkPair<Region>>): set<Region>
  {
    (set k | k in entries :: entries[k].r1) + (set k | k in entries :: entries[k].r2)
  }

  lemma EndpointsOf(entries: map<UInt32, LinkPair<Region>>, key: UInt32)
    requires key in entries
    ensures entries[key].r1 in Endpoints(entries) && entries[key].r2 in Endpoints(entries)
  {
  }

  /** Each link in the dictionary is listed by both regions it joins. */
  ghost predicate Symmetric(entries: map<UInt32, LinkPair<Region>>)
    reads Endpoints(entries)
  {
    forall key, r :: key in entries && r in Endpoints(entries) && (r == entries[key].r1 || r == entries[key].r2) ==>
      key in r.links
  }

  /** `List<uint>.IndexOf`: the position of the first occurrence of `key`. */
  function IndexOf(links: seq<UInt32>, key: UInt32): (j: nat)
    requires key in links
    ensures j < |links| && links[j] == key && key !in links[..j]
  {
    if links[0] == key then 0
    else
      var j := 1 + IndexOf(links[1..], key);
      assert links[..j] == [links[0]] + links[1..][..j - 1];
      j
  }

  /** A list has only one first occurrence of a key. */
  lemma FirstOccurrenceUnique(links: seq<UInt32>, key: UInt32, i: nat)
    requires i < |links| && links[i] == key && key !in links[..i]
    ensures forall j :: 0 <= j < |links| && links[j] == key && key !in links[..j] ==> j == i
  {
  }

  /**
   * `List<uint>.Remove`: drops the first occurrence of `key`, if there is one;
   * the other keys keep their order.
   */
  function RemoveFirst(links: seq<UInt32>, key: UInt32): (r: seq<UInt32>)
    ensures key !in links ==> r == links
    ensures key in links ==> |r| == |links| - 1
    ensures multiset(r) == multiset(links) - multiset{key}
    ensures forall j :: 0 <= j < |links| && links[j] == key && key !in links[..j] ==>
      r == links[..j] + links[j + 1..]
  {
    if key !in links then links
    else
      var i := IndexOf(links, key);
      assert links == links[..i] + [key] + links[i + 1..];
      FirstOccurrenceUnique(links, key, i);
      links[..i] + links[i + 1..]
  }

  /** The keys a list holds. */
  function KeySet(links: seq<UInt32>): (keys: set<UInt32>)
    ensures forall key :: key in keys <==> key in links
  {
    set key | key in links
  }

  /**
   * What `ResetLinks` on region `self`, holding the keys `held`, leaves of
   * region `target`'s list `links`, when the dictionary started as `cache`.
   * Keys are processed in order; a key counts only the first time it is met
   * (the dictionary entry is gone afterwards), and only when the region across
   * it from `self` is `target`.
   */
  function Purged(held: seq<UInt32>, cache: map<UInt32, LinkPair<Region>>, self: Region, target: Region,
                  links: seq<UInt32>): seq<UInt32>
    decreases |held|
  {
    if held == [] then links
    else
      var earlier := held[..|held| - 1];
      var key := held[|held| - 1];
      var before := Purged(earlier, cache, self, target, links);
      if key in cache && key !in earlier && GetOtherRegion(cache[key], self) == target
      then RemoveFirst(before, key)
      else before
  }

  /** `Purged` takes one more held key into account. */
  lemma PurgedSnoc(held: seq<UInt32>, key: UInt32, cache: map<UInt32, LinkPair<Region>>, self: Region,
                   target: Region, links: seq<UInt32>)
    ensures var before := Purged(held, cache, self, target, links);
      Purged(held + [key], cache, self, target, links) ==
        if key in cache && key !in held && GetOtherRegion(cache[key], self) == target
        then RemoveFirst(before, key) else before
  {
  }

  /** The held keys whose dictionary entry leads from `self` to `target`: what `Purged` takes out. */
  function Dropped(held: seq<UInt32>, cache: map<UInt32, LinkPair<Region>>, self: Region, target: Region): (keys: set<UInt32>)
    ensures forall key :: key in keys <==>
      key in held && key in cache && GetOtherRegion(cache[key], self) == target
  {
    set key | key in held && key in cache && GetOtherRegion(cache[key], self) == target
  }

  /**
   * `Purged` removes one occurrence of each dropped key from the target's list
   * and nothing else.
   */
  lemma {:induction false} PurgedRemovesDropped(held: seq<UInt32>, cache: map<UInt32, LinkPair<Region>>,
                                                self: Region, target: Region, links: seq<UInt32>)
    ensures multiset(Purged(held, cache, self, target, links)) ==
            multiset(links) - multiset(Dropped(held, cache, self, target))
    decreases |held|
  {
    if held != [] {
      var earlier := held[..|held| - 1];
      var key := held[|held| - 1];
      assert held == earlier + [key];
      PurgedRemovesDropped(earlier, cache, self, target, links);
      var before := Dropped(earlier, cache, self, target);
      if key in cache && key !in earlier && GetOtherRegion(cache[key], self) == target {
        assert Dropped(held, cache, self, target) == before + {key};
        RemoveOneMore(multiset(links), before, key);
      } else {
        assert Dropped(held, cache, self, target) == before;
      }
    }
  }

  /** Taking away one more key, not yet taken, is taking away the larger set. */
  lemma RemoveOneMore(m: multiset<UInt32>, keys: set<UInt32>, key: UInt32)
    requires key !in keys
    ensures m - multiset(keys) - multiset{key} == m - multiset(keys + {key})
  {
  }

  /** A key the resetting region did not hold stays in, or stays out of, every other list. */
  lemma PurgedKeepsUnheld(held: seq<UInt32>, cache: map<UInt32, LinkPair<Region>>, self: Region,
                          target: Region, links: seq<UInt32>, key: UInt32)
    requires key !in held
    ensures key in Purged(held, cache, self, target, links) <==> key in links
  {
    PurgedRemovesDropped(held, cache, self, target, links);
    assert key !in multiset(Dropped(held, cache, self, target));
    assert multiset(Purged(held, cache, self, target, links))[key] == multiset(links)[key];
  }

  /**
   * A held key whose link leads to `target` is gone from `target`'s list,
   * provided the list held it at most once.
   */
  lemma PurgedDropsHeld(held: seq<UInt32>, cache: map<UInt32, LinkPair<Region>>, self: Region,
                        target: Region, links: seq<UInt32>, key: UInt32)
    requires key in held && key in cache && GetOtherRegion(cache[key], self) == target
    requires multiset(links)[key] <= 1
    ensures key !in Purged(held, cache, self, target, links)
  {
    PurgedRemovesDropped(held, cache, self, target, links);
    assert key in multiset(Dropped(held, cache, self, target));
    assert multiset(Purged(held, cache, self, target, links))[key] == 0;
  }

  /**
   * The tile total of `room` over a population of regions, given each
   * region's size and room: what the room's own `size` counts.
   */
  function Total(sizes: seq<int>, rooms: seq<Room>, room: Room): int
    requires |sizes| == |rooms|
    decreases |sizes|
  {
    if sizes == [] then 0
    else (if rooms[0] == room then sizes[0] else 0) + Total(sizes[1..], rooms[1..], room)
  }

  /**
   * Resizing region `k` changes its room's total by the difference and no
   * other room's: `IncrementSize` adds one tile, `Destroy` takes all of the
   * region's tiles out (size 0 as far as the room is concerned).
   */
  lemma {:induction false} TotalAfterResize(sizes: seq<int>, rooms: seq<Room>, k: nat, n: int, room: Room)
    requires |sizes| == |rooms| && k < |sizes|
    ensures Total(sizes[k := n], rooms, room) ==
      Total(sizes, rooms, room) + (if rooms[k] == room then n - sizes[k] else 0)
    decreases |sizes|
  {
    if k > 0 {
      assert sizes[k := n][1..] == sizes[1..][k - 1 := n];
      TotalAfterResize(sizes[1..], rooms[1..], k - 1, n, room);
    }
  }

  /**
   * Moving region `k` to `newRoom` takes its size from its old room's total
   * and adds it to `newRoom`'s, as `ReplaceRoom` does to the rooms' sizes;
   * every other total is unchanged.
   */
  lemma {:induction false} TotalAfterMove(sizes: seq<int>, rooms: seq<Room>, k: nat, newRoom: Room, room: Room)
    requires |sizes| == |rooms| && k < |sizes|
    ensures Total(sizes, rooms[k := newRoom], room) ==
      Total(sizes, rooms, room) - (if rooms[k] == room then sizes[k] else 0) + (if newRoom == room then sizes[k] else 0)
    decreases |sizes|
  {
    if k > 0 {
      assert rooms[k := newRoom][1..] == rooms[1..][k - 1 := newRoom];
      TotalAfterMove(sizes[1..], rooms[1..], k - 1, newRoom, room);
    }
  }

  class Region {
    var room: Room
    var links: seq<UInt32>
    var size: int

    /** A region with no tiles and no links, in a fresh empty room with identifier `roomId`. */
    constructor (roomId: int)
      ensures size == 0 && links == []
      ensures fresh(room) && room.size == 0 && room.id == roomId
    {
      room := new Room(roomId);
      links := [];
      size := 0;
    }

    /** One more tile in this region, and so in its room. */
    method IncrementSize()
      modifies this, room
      ensures room == old(room) && links == old(links) && room.id == old(room.id)
      ensures size == old(size) + 1
      ensures room.size == old(room.size) + 1
    {
      size := size + 1;
      room.size := room.size + 1;
    }

    /**
     * Removes every link this region holds from the dictionary and from the
     * list of the region across it, then empties this region's list.
     * A link whose other end is this region itself would make the source
     * change the list it is iterating over, which throws; callers never pass one.
     */
    method ResetLinks(cache: LinkCache)
      requires forall key :: key in links && key in cache.entries ==> GetOtherRegion(cache.entries[key], this) != this
      modifies this, cache, Endpoints(cache.entries)
      ensures links == [] && size == old(size) && room == old(room)
      ensures cache.entries == old(cache.entries) - KeySet(old(links))
      ensures forall r :: old(allocated(r)) && r in Endpoints(old(cache.entries)) && r != this ==>
        r.links == Purged(old(links), old(cache.entries), this, r, old(r.links)) &&
        r.size == old(r.size) && r.room == old(r.room)
      ensures old(Symmetric(cache.entries)) ==> Symmetric(cache.entries)
    {
      PurgeLinks(cache);
      links := [];
      if old(Symmetric(cache.entries)) {
        forall key, r | key in cache.entries && r in Endpoints(cache.entries) &&
                        (r == cache.entries[key].r1 || r == cache.entries[key].r2)
          ensures key in r.links
        {
          EndpointsOf(old(cache.entries), key);
          PurgedKeepsUnheld(old(links), old(cache.entries), this, r, old(r.links), key);
        }
      }
    }

    /** The loop of `ResetLinks`: every held link leaves the dictionary and the list across it. */
    method PurgeLinks(cache: LinkCache)
      requires forall key :: key in links && key in cache.entries ==> GetOtherRegion(cache.entries[key], this) != this
      modifies cache, Endpoints(cache.entries)
      ensures links == old(links) && size == old(size) && room == old(room)
      ensures cache.entries == old(cache.entries) - KeySet(old(links))
      ensures forall r :: old(allocated(r)) && r in Endpoints(old(cache.entries)) && r != this ==>
        r.links == Purged(old(links), old(cache.entries), this, r, old(r.links)) &&
        r.size == old(r.size) && r.room == old(r.room)
    {
      ghost var start := cache.entries;
      ghost var before := map r | r in Endpoints(start) :: r.links;
      var i := 0;
      while i < |links|
        invariant 0 <= i <= |links|
        invariant links == old(links) && size == old(size) && room == old(room)
        invariant cache.entries == start - KeySet(links[..i])
        invariant forall r :: r in Endpoints(start) && r != this ==>
          r.links == Purged(links[..i], start, this, r, before[r])
        invariant forall r :: r in Endpoints(start) && r != this ==>
          r.size == old(r.size) && r.room == old(r.room)
      {
        PurgeStep(cache, i, start, before);
        i := i + 1;
      }
      assert links[..i] == old(links);
    }

    /** One iteration of `PurgeLinks`: the `i`-th held link is dropped and the record extended. */
    method PurgeStep(cache: LinkCache, i: nat, ghost start: map<UInt32, LinkPair<Region>>,
                     ghost before: map<Region, seq<UInt32>>)
      requires i < |links|
      requires forall key :: key in links && key in start ==> GetOtherRegion(start[key], this) != this
      requires cache.entries == start - KeySet(links[..i])
      requires forall r :: r in Endpoints(start) && r != this ==>
        r in before && r.links == Purged(links[..i], start, this, r, before[r])
      modifies cache, Endpoints(start)
      ensures links == old(links) && size == old(size) && room == old(room)
      ensures cache.entries == start - KeySet(links[..i + 1])
      ensures forall r :: r in Endpoints(start) && r != this ==>
        r.links == Purged(links[..i + 1], start, this, r, before[r])
      ensures forall r :: r in Endpoints(start) && r != this ==>
        r.size == old(r.size) && r.room == old(r.room)
    {
      var link := links[i];
      assert links[..i + 1] == links[..i] + [link];
      DropLink(cache, link, start);
      forall r | r in Endpoints(start) && r != this
        ensures r.links == Purged(links[..i + 1], start, this, r, before[r])
      {
        PurgedSnoc(links[..i], link, start, this, r, before[r]);
      }
      assert KeySet(links[..i + 1]) == KeySet(links[..i]) + {link};
    }

    /**
     * One step of `ResetLinks`: when `link` is still in the dictionary, it
     * leaves the list of the region across it and the dictionary itself.
     * `start` is any dictionary the current one is part of.
     */
    method DropLink(cache: LinkCache, link: UInt32, ghost start: map<UInt32, LinkPair<Region>>)
      requires link in cache.entries ==> GetOtherRegion(cache.entries[link], this) != this
      requires cache.entries.Keys <= start.Keys
      requires forall key :: key in cache.entries ==> cache.entries[key] == start[key]
      modifies cache, Endpoints(start)
      ensures cache.entries == old(cache.entries) - {link}
      ensures links == old(links) && size == old(size) && room == old(room)
      ensures forall r :: r in Endpoints(start) && r != this ==>
        r.size == old(r.size) && r.room == old(r.room) &&
        r.links == if link in old(cache.entries) && GetOtherRegion(old(cache.entries)[link], this) == r
                   then RemoveFirst(old(r.links), link) else old(r.links)
    {
      if link in cache.entries {
        var pair := cache.entries[link];
        EndpointsOf(start, link);
        var other := GetOtherRegion(pair, this);
        other.links := RemoveFirst(other.links, link);
        cache.entries := cache.entries - {link};
      }
    }

    /** Takes this region's tiles out of its room's count (the region is going away). */
    method Destroy()
      modifies room
      ensures room.size == old(room.size) - size
      ensures room.id == old(room.id)
    {
      room.size := room.size - size;
    }

    /** Moves this region, with its tiles, from its room to `newRoom`. */
    method ReplaceRoom(newRoom: Room)
      modifies this, room, newRoom
      ensures room == newRoom && size == old(size) && links == old(links)
      ensures old(room) != newRoom ==>
        old(room).size == old(room.size) - size && newRoom.size == old(newRoom.size) + size
      ensures old(room) == newRoom ==> newRoom.size == old(newRoom.size)
      ensures old(room).size + (if old(room) == newRoom then 0 else newRoom.size) ==
              old(room.size) + (if old(room) == newRoom then 0 else old(newRoom.size))
      ensures old(room).id == old(room.id) && newRoom.id == old(newRoom.id)
    {
      Destroy();
      room := newRoom;
      room.size := room.size + size;
    }
  }
}
