/**
 * The registry of TypeScript rooms (apps/node_server/src/game/RoomManager.ts):
 * a map from room code to room, and the generation of fresh room codes.
 *
 * `Math.random()` is a parameter `draw`: `draw(a, i)` is the number in [0, 1)
 * drawn for character `i` of attempt `a`. `crypto.randomUUID()` is a string
 * parameter.
 */
module RoomRegistry {
  import opened Wrappers
  import opened Net
  import opened Text
  import opened RoomObject

  /** The room-code alphabet: the capital letters without I, L and O. */
  const RoomCodeChars: string := "ABCDEFGHJKMNPQRSTUVWXYZ"
  const RoomCodeLength: nat := 6

  predicate IsRoomCode(s: string)
  {
    |s| == RoomCodeLength && forall i :: 0 <= i < |s| ==> s[i] in RoomCodeChars
  }

  /** Every room code is upper case, so upper-casing a room code leaves it alone. */
  lemma {:induction false} RoomCodeIsUpper(s: string)
    requires IsRoomCode(s)
    ensures Upper(s) == s
  {
    assert forall j :: 0 <= j < |RoomCodeChars| ==> IsUpper(RoomCodeChars[j]);
    forall i | 0 <= i < |s|
      ensures Upper(s)[i] == s[i]
    {
      assert s[i] in RoomCodeChars;
      assert IsUpper(s[i]);
    }
  }

  /** Every value of `Math.random()` lies in [0, 1). */
  ghost predicate DrawsInRange(draw: (nat, nat) -> real)
  {
    forall a, i :: 0.0 <= draw(a, i) < 1.0
  }

  /** `Math.floor(r * ROOM_CODE_CHARS.length)`: a position in the alphabet. */
  function Pick(r: real): (k: int)
    requires 0.0 <= r < 1.0
    ensures 0 <= k < |RoomCodeChars|
  {
    (r * |RoomCodeChars| as real).Floor
  }

  /** The code that attempt `a` spells. */
  function CodeAt(draw: (nat, nat) -> real, a: nat): (c: string)
    requires DrawsInRange(draw)
    ensures IsRoomCode(c)
  {
    seq(RoomCodeLength, i requires 0 <= i < RoomCodeLength => RoomCodeChars[Pick(draw(a, i))])
  }

  /**
   * One attempt: six characters appended one at a time, each picked by the
   * next random draw.
   */
  method DrawCode(draw: (nat, nat) -> real, a: nat) returns (code: string)
    requires DrawsInRange(draw)
    ensures code == CodeAt(draw, a)
  {
    code := "";
    var i := 0;
    while i < RoomCodeLength
      invariant 0 <= i <= RoomCodeLength
      invariant code == CodeAt(draw, a)[..i]
    {
      code := code + [RoomCodeChars[Pick(draw(a, i))]];
      i := i + 1;
    }
  }

  class RoomManager {
    var rooms: map<string, Room>

    /** Every room is stored under its own code, which is a room code, and is itself valid. */
    ghost predicate Valid()
      reads this, rooms.Values
    {
      forall c :: c in rooms ==> rooms[c].code == c && IsRoomCode(c) && rooms[c].Valid()
    }

    constructor ()
      ensures rooms == map[]
      ensures Valid()
    {
      rooms := map[];
    }

    /**
     * Draws attempt after attempt until a code is not yet in use. The result
     * is a room code that no room has, and it is the first attempt that was
     * free. The loop ends because some attempt is free.
     */
    method GenerateRoomCode(draw: (nat, nat) -> real) returns (code: string)
      requires DrawsInRange(draw)
      requires exists a: nat :: CodeAt(draw, a) !in rooms
      ensures IsRoomCode(code) && code !in rooms
      ensures exists a: nat :: code == CodeAt(draw, a) && forall b: nat :: b < a ==> CodeAt(draw, b) in rooms
    {
      ghost var free: nat :| CodeAt(draw, free) !in rooms;
      var a: nat := 0;
      code := DrawCode(draw, a);
      while code in rooms
        invariant a <= free
        invariant code == CodeAt(draw, a)
        invariant forall b: nat :: b < a ==> CodeAt(draw, b) in rooms
        decreases free - a
      {
        a := a + 1;
        code := DrawCode(draw, a);
      }
    }

    /**
     * Registers a new room under a fresh code with the given host token; the
     * registry grows by exactly that room.
     */
    method CreateRoom(draw: (nat, nat) -> real, hostToken: string) returns (room: Room, code: string, token: string)
      requires Valid()
      requires DrawsInRange(draw)
      requires exists a: nat :: CodeAt(draw, a) !in rooms
      modifies this
      ensures Valid()
      ensures fresh(room)
      ensures code !in old(rooms) && IsRoomCode(code)
      ensures rooms == old(rooms)[code := room]
      ensures room.code == code && room.hostToken == hostToken && token == hostToken
      ensures room.players == [] && room.hostWs == None && room.gameState == Lobby
      ensures RoomCount() == old(RoomCount()) + 1
    {
      code := GenerateRoomCode(draw);
      token := hostToken;
      room := new Room(code, token);
      rooms := rooms[code := room];
    }

    /** `rooms.get(code.toUpperCase())` */
    function GetRoom(code: string): Option<Room>
      reads this
    {
      var key := Upper(code);
      if key in rooms then Some(rooms[key]) else None
    }

    /**
     * Removes the room stored under exactly `code` (no case mapping), after
     * closing all its sockets; an unknown code changes nothing.
     */
    method DeleteRoom(code: string, net: Network) returns (deleted: bool)
      requires Valid()
      modifies this, net
      ensures Valid()
      ensures deleted <==> code in old(rooms)
      ensures deleted ==> rooms == old(rooms) - {code} && net.log == old(net.log) + old(rooms)[code].CleanupFrames()
      ensures !deleted ==> rooms == old(rooms) && net.log == old(net.log)
    {
      if code in rooms {
        var room := rooms[code];
        room.Cleanup(net);
        rooms := rooms - {code};
        return true;
      }
      return false;
    }

    function RoomCount(): nat
      reads this
    {
      |rooms|
    }
  }

  /**
   * The registry stays valid across any change that keeps the map of rooms
   * and, in every room, the players and the pid counter.
   */
  twostate lemma ValidKept(m: RoomManager)
    requires old(m.Valid())
    requires m.rooms == old(m.rooms)
    requires forall c :: c in m.rooms ==>
      m.rooms[c].players == old(m.rooms[c].players) && m.rooms[c].nextPid == old(m.rooms[c].nextPid)
    ensures m.Valid()
  {
  }

  /** Room lookup ignores case: any spelling of a stored code finds its room. */
  lemma GetRoomIgnoresCase(m: RoomManager, code: string, query: string)
    requires m.Valid() && code in m.rooms
    requires SameIgnoringCase(query, code)
    ensures m.GetRoom(query) == Some(m.rooms[code])
  {
    RoomCodeIsUpper(code);
  }

  /** A lookup finds a room only under the upper-case spelling of a stored code. */
  lemma GetRoomFound(m: RoomManager, query: string)
    requires m.Valid()
    ensures m.GetRoom(query).Some? <==> Upper(query) in m.rooms
    ensures m.GetRoom(query).Some? ==> m.GetRoom(query).value.code == Upper(query)
  {
  }
}
