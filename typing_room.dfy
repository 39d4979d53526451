/**
 * The room page's local view of a server-owned room (`TypingRoom`): how
 * each inbound event rewrites the local `RoomData`, which request a
 * `roomData` reply triggers, and the predicates that start the countdown
 * and decide what is drawn.  Outbound messages are returned as values.
 */
module TypingRoom {
  import opened Optional
  import opened StatsChannel

  datatype Player = Player(id: string, name: string, isHost: bool)

  /** The room snapshot the server sends. */
  datatype RoomData = RoomData(id: string, text: string, players: seq<Player>, status: string, ready: seq<string>)

  /** The request a `roomData` reply leads to. */
  datatype Request =
    | NoRequest
    | CreateRoom(roomName: string, playerName: string, playerId: string, text: string)
    | JoinRoom(roomName: string, playerName: string, playerId: string)

  /** What happens to the preparation countdown. */
  datatype TimerCommand = Untouched | ResetTimer

  predicate HasPlayer(players: seq<Player>, id: string)
  {
    exists i :: 0 <= i < |players| && players[i].id == id
  }

  /** `players.find(p => p.id === id)`, as a search from the front. */
  function FindPlayer(players: seq<Player>, id: string): (r: Option<Player>)
    ensures r.Some? <==> HasPlayer(players, id)
    ensures r.Some? ==> r.value.id == id && r.value in players
  {
    if players == [] then None
    else if players[0].id == id then Some(players[0])
    else
      var rest := FindPlayer(players[1..], id);
      assert HasPlayer(players[1..], id) ==> HasPlayer(players, id) by {
        if HasPlayer(players[1..], id) {
          var i :| 0 <= i < |players[1..]| && players[1..][i].id == id;
          assert players[i + 1].id == id;
        }
      }
      assert HasPlayer(players, id) && players[0].id != id ==> HasPlayer(players[1..], id) by {
        if HasPlayer(players, id) && players[0].id != id {
          var i :| 0 <= i < |players| && players[i].id == id;
          assert players[1..][i - 1].id == id;
        }
      }
      rest
  }

  /** The effect that resets and then starts the preparation countdown. */
  predicate CountdownTriggered(room: Option<RoomData>)
  {
    room.Some? && |room.value.players| >= 2 && |room.value.ready| >= 2 && room.value.status == "running"
  }

  /** The typing area replaces the waiting banner once two players are
      ready, whatever the status. */
  predicate ShowsTypingArea(room: RoomData)
  {
    |room.ready| >= 2
  }

  /** What stands beside a player's name. */
  datatype Badge = ReadyCheck | ReadyButton | NoBadge

  function BadgeFor(room: RoomData, localId: string, p: Player): (r: Badge)
    ensures r == ReadyButton <==> p.id == localId && p.id !in room.ready
    ensures r == ReadyCheck <==> p.id in room.ready
  {
    if p.id in room.ready then ReadyCheck
    else if p.id == localId then ReadyButton
    else NoBadge
  }

  /** The badges of the player list, in order. */
  function Badges(room: RoomData, localId: string): (r: seq<Badge>)
    ensures |r| == |room.players|
    ensures forall i :: 0 <= i < |r| ==> r[i] == BadgeFor(room, localId, room.players[i])
  {
    seq(|room.players|, i requires 0 <= i < |room.players| => BadgeFor(room, localId, room.players[i]))
  }

  /** Player ids are distinct. */
  ghost predicate DistinctIds(players: seq<Player>)
  {
    forall i, j :: 0 <= i < j < |players| ==> players[i].id != players[j].id
  }

  /** With distinct ids, at most one Ready button is drawn, and only when the
      local player is in the room and not yet ready. */
  lemma AtMostOneReadyButton(room: RoomData, localId: string, i: int, j: int)
    requires DistinctIds(room.players)
    requires 0 <= i < |room.players| && 0 <= j < |room.players|
    requires Badges(room, localId)[i] == ReadyButton && Badges(room, localId)[j] == ReadyButton
    ensures i == j
    ensures HasPlayer(room.players, localId) && localId !in room.ready
  {
    assert room.players[i].id == localId == room.players[j].id;
  }

  /** A triggered countdown always comes with the typing area on screen. */
  lemma CountdownShowsTypingArea(room: Option<RoomData>)
    requires CountdownTriggered(room)
    ensures ShowsTypingArea(room.value)
  {
  }

  /** The typing area does not wait for the race to run: two ready players
      show it while the status is still waiting, and the countdown does not
      start then. */
  lemma TypingAreaIgnoresStatus(room: RoomData, status: string)
    ensures ShowsTypingArea(room.(status := status)) == ShowsTypingArea(room)
    ensures |room.ready| >= 2 && room.status != "running" ==>
              ShowsTypingArea(room) && !CountdownTriggered(Some(room))
  {
  }

  /** The room as `roomCreated` leaves it: the creator alone, as host. */
  function CreatedRoom(roomId: string, playerId: string, playerName: string, text: string): (r: RoomData)
    ensures r.id == roomId && r.text == text
    ensures r.players == [Player(playerId, playerName, true)]
    ensures r.ready == [] && r.status == "waiting"
  {
    RoomData(roomId, text, [Player(playerId, playerName, true)], "waiting", [])
  }

  /** A freshly created room neither starts the countdown nor shows the
      typing area. */
  lemma CreatedRoomIsWaiting(roomId: string, playerId: string, playerName: string, text: string)
    ensures !CountdownTriggered(Some(CreatedRoom(roomId, playerId, playerName, text)))
    ensures !ShowsTypingArea(CreatedRoom(roomId, playerId, playerName, text))
  {
  }

  /** The request a `roomData` reply triggers. */
  function RequestFor(data: Option<RoomData>, roomId: string, playerId: string, playerName: string,
                      sampleText: string): (r: Request)
    ensures data.None? <==> r.CreateRoom?
    ensures r.CreateRoom? ==> r == CreateRoom(roomId, playerName, playerId, sampleText)
    ensures r.JoinRoom? <==> data.Some? && !HasPlayer(data.value.players, playerId)
    ensures r.JoinRoom? ==> r == JoinRoom(roomId, playerName, playerId)
  {
    if data.None? then CreateRoom(roomId, playerName, playerId, sampleText)
    else if FindPlayer(data.value.players, playerId).None? then JoinRoom(roomId, playerName, playerId)
    else NoRequest
  }

  /** The session page.  `roomId` is the id the listeners were set up with;
      `storedRoomId` is the one kept in local storage. */
  class RoomView {
    const roomId: string
    const playerId: string
    const playerName: string
    var storedRoomId: string
    var roomData: Option<RoomData>
    var opponentStats: Option<OpponentStats>

    constructor (roomId: string, playerId: string, playerName: string)
      ensures this.roomId == roomId && this.playerId == playerId && this.playerName == playerName
      ensures storedRoomId == roomId && roomData == None && opponentStats == None
    {
      this.roomId, this.playerId, this.playerName := roomId, playerId, playerName;
      storedRoomId, roomData, opponentStats := roomId, None, None;
    }

    /** A `roomData` reply: the snapshot becomes the local state, and a
        missing room or a room without us leads to a create or join request.
        `sampleText` is the passage this render picked. */
    method OnRoomData(data: Option<RoomData>, sampleText: string) returns (req: Request)
      modifies this`roomData
      ensures roomData == data
      ensures req == RequestFor(data, roomId, playerId, playerName, sampleText)
    {
      req := NoRequest;
      if data.None? {
        req := CreateRoom(roomId, playerName, playerId, sampleText);
      } else if FindPlayer(data.value.players, playerId).None? {
        req := JoinRoom(roomId, playerName, playerId);
      }
      roomData := data;
    }

    /** `roomCreated`: a one-player room, remembered in local storage. */
    method OnRoomCreated(newRoomId: string, creatorId: string, creatorName: string, text: string)
      modifies this`roomData, this`storedRoomId
      ensures roomData == Some(CreatedRoom(newRoomId, creatorId, creatorName, text))
      ensures storedRoomId == newRoomId
    {
      roomData := Some(CreatedRoom(newRoomId, creatorId, creatorName, text));
      storedRoomId := newRoomId;
    }

    /** `playerJoined`: the player list is replaced only for our own room;
        local storage takes the event's room id in any case. */
    method OnPlayerJoined(updatedRoomId: string, players: seq<Player>)
      modifies this`roomData, this`storedRoomId
      ensures storedRoomId == updatedRoomId
      ensures roomData.Some? <==> old(roomData).Some?
      ensures updatedRoomId == roomId && old(roomData).Some? ==> roomData == Some(old(roomData).value.(players := players))
      ensures updatedRoomId != roomId ==> roomData == old(roomData)
    {
      if updatedRoomId == roomId && roomData.Some? {
        roomData := Some(roomData.value.(players := players));
      }
      storedRoomId := updatedRoomId;
    }

    /** `gameReset`: readiness cleared, status back to waiting, and the
        countdown reset. */
    method OnGameReset() returns (timer: TimerCommand)
      modifies this`roomData
      ensures timer == ResetTimer
      ensures roomData.Some? <==> old(roomData).Some?
      ensures roomData.Some? ==>
                && roomData.value.ready == [] && roomData.value.status == "waiting"
                && roomData.value.id == old(roomData).value.id
                && roomData.value.text == old(roomData).value.text
                && roomData.value.players == old(roomData).value.players
      ensures !CountdownTriggered(roomData)
    {
      if roomData.Some? {
        roomData := Some(roomData.value.(ready := [], status := "waiting"));
      }
      timer := ResetTimer;
    }

    /** `playerStats`: latest foreign snapshot wins. */
    method OnPlayerStats(e: StatsEvent)
      modifies this`opponentStats
      ensures opponentStats == Receive(playerId, old(opponentStats), e)
    {
      opponentStats := Receive(playerId, opponentStats, e);
    }
  }
}
