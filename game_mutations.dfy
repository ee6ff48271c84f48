/** The move encoders: each move variant a player can make is turned into
    the single `MoveInput` record sent to the server. The record schema's
    own field types are stand-ins here (`int` for ids, times and locations,
    `string` for the tile and move type tags). */
module GameMutations {
  import opened Wrappers

  // ---------------------------------------------------------------------
  // Inputs

  datatype Lobby = Lobby(id: int)

  /** The acting player; `lobby` is absent when the player is in none. */
  datatype Player = Player(id: int, lobby: Option<Lobby>)

  /** A tile as the client holds it: its score is called `value`. */
  datatype Tile = Tile(letter: string, value: int, tileType: string, location: int)

  /** The four move variants, one record type each. */
  datatype Submit = Submit(player: Player, time: int, moveType: string, tiles: seq<Tile>, pointValue: int)
  datatype Scramble = Scramble(player: Player, time: int, moveType: string)
  datatype SelectTile = SelectTile(player: Player, time: int, moveType: string, tiles: seq<Tile>)
  datatype DeselectTile = DeselectTile(player: Player, time: int, moveType: string, tiles: seq<Tile>)

  // ---------------------------------------------------------------------
  // The wire record

  /** A tile on the wire: its score is called `pointValue`. */
  datatype TileInput = TileInput(letter: string, pointValue: int, tileType: string, location: int)

  /** The one record every move is sent as. `tiles` is absent for a
      scramble; `pointValue` is the move's score, not a tile's. */
  datatype MoveInput = MoveInput(playerId: int, lobbyId: int, time: int, moveType: string,
                                 tiles: Option<seq<TileInput>>, pointValue: int)

  /** The lobby id sent for a player: the lobby's id, or `-1` for none. */
  function LobbyIdOf(p: Player): (id: int)
    ensures p.lobby.Some? ==> id == p.lobby.value.id
    ensures p.lobby.None? ==> id == -1
  {
    if p.lobby.Some? then p.lobby.value.id else -1
  }

  /** Reading the lobby back from a sent id: `-1` means none. */
  function LobbyFromId(id: int): Option<int>
  {
    if id == -1 then None else Some(id)
  }

  /** The `-1` sentinel is decoded back to the player's lobby whenever no
      real lobby has id `-1`. */
  lemma LobbyIdRoundTrip(p: Player)
    requires p.lobby.Some? ==> p.lobby.value.id != -1
    ensures LobbyFromId(LobbyIdOf(p)) == if p.lobby.Some? then Some(p.lobby.value.id) else None
  {
  }

  // ---------------------------------------------------------------------
  // Tile mapping

  /** One tile renamed for the wire. */
  function ToWire(t: Tile): TileInput
  {
    TileInput(t.letter, t.value, t.tileType, t.location)
  }

  /** One wire tile read back. */
  function FromWire(w: TileInput): Tile
  {
    Tile(w.letter, w.pointValue, w.tileType, w.location)
  }

  /** The tile list mapped for the wire, built by appending at the end. */
  function WireTiles(tiles: seq<Tile>): seq<TileInput>
  {
    if |tiles| == 0 then [] else WireTiles(tiles[..|tiles| - 1]) + [ToWire(tiles[|tiles| - 1])]
  }

  /** A wire tile list read back. */
  function UnwireTiles(ws: seq<TileInput>): seq<Tile>
  {
    if |ws| == 0 then [] else UnwireTiles(ws[..|ws| - 1]) + [FromWire(ws[|ws| - 1])]
  }

  /** The tiles a record carries, read back; none for a record without. */
  function TilesOf(t: MoveInput): seq<Tile>
  {
    if t.tiles.Some? then UnwireTiles(t.tiles.value) else []
  }

  /** The index loop that maps the tile list, pushing one wire tile per
      input tile. */
  method MapTiles(tiles: seq<Tile>) returns (temp: seq<TileInput>)
    ensures temp == WireTiles(tiles)
  {
    temp := [];
    for i := 0 to |tiles|
      invariant temp == WireTiles(tiles[..i])
    {
      assert tiles[..i + 1][..i] == tiles[..i];
      temp := temp + [ToWire(tiles[i])];
    }
    assert tiles[..|tiles|] == tiles;
  }

  /** The mapping keeps length and order; element `i` keeps the letter,
      type and location of tile `i` and carries its `value` as
      `pointValue`. */
  lemma {:induction false} WireTilesElements(tiles: seq<Tile>)
    ensures |WireTiles(tiles)| == |tiles|
    ensures forall i :: 0 <= i < |tiles| ==>
      WireTiles(tiles)[i].letter == tiles[i].letter &&
      WireTiles(tiles)[i].pointValue == tiles[i].value &&
      WireTiles(tiles)[i].tileType == tiles[i].tileType &&
      WireTiles(tiles)[i].location == tiles[i].location
  {
    if |tiles| > 0 {
      var init := tiles[..|tiles| - 1];
      WireTilesElements(init);
      forall i | 0 <= i < |tiles| - 1
        ensures WireTiles(tiles)[i] == WireTiles(init)[i] && tiles[i] == init[i]
      {
      }
    }
  }

  /** Reading a mapped tile list back gives the original list. */
  lemma {:induction false} UnwireWireTiles(tiles: seq<Tile>)
    ensures UnwireTiles(WireTiles(tiles)) == tiles
  {
    if |tiles| > 0 {
      var init := tiles[..|tiles| - 1];
      var ws := WireTiles(tiles);
      assert ws[..|ws| - 1] == WireTiles(init);
      UnwireWireTiles(init);
      assert tiles == init + [tiles[|tiles| - 1]];
    }
  }

  // ---------------------------------------------------------------------
  // The encoders

  /** `submitMove`: tiles mapped, the move's own score passed through. */
  method SubmitMove(input: Submit) returns (t: MoveInput)
    ensures t.playerId == input.player.id && t.lobbyId == LobbyIdOf(input.player)
    ensures t.time == input.time && t.moveType == input.moveType
    ensures t.tiles == Some(WireTiles(input.tiles)) && TilesOf(t) == input.tiles
    ensures t.pointValue == input.pointValue
  {
    var temp := MapTiles(input.tiles);
    UnwireWireTiles(input.tiles);
    t := MoveInput(input.player.id, LobbyIdOf(input.player), input.time, input.moveType,
                   Some(temp), input.pointValue);
  }

  /** `randomizeMove`: no tiles and a score of 0. */
  function RandomizeMove(input: Scramble): (t: MoveInput)
    ensures t.playerId == input.player.id && t.lobbyId == LobbyIdOf(input.player)
    ensures t.time == input.time && t.moveType == input.moveType
    ensures t.tiles == None && TilesOf(t) == []
    ensures t.pointValue == 0
  {
    MoveInput(input.player.id, LobbyIdOf(input.player), input.time, input.moveType, None, 0)
  }

  /** `selectMove`: tiles mapped, a score of 0. */
  method SelectMove(input: SelectTile) returns (t: MoveInput)
    ensures t.playerId == input.player.id && t.lobbyId == LobbyIdOf(input.player)
    ensures t.time == input.time && t.moveType == input.moveType
    ensures t.tiles == Some(WireTiles(input.tiles)) && TilesOf(t) == input.tiles
    ensures t.pointValue == 0
  {
    var temp := MapTiles(input.tiles);
    UnwireWireTiles(input.tiles);
    t := MoveInput(input.player.id, LobbyIdOf(input.player), input.time, input.moveType,
                   Some(temp), 0);
  }

  /** `deselectMove`: tiles mapped, a score of 0. */
  method DeselectMove(input: DeselectTile) returns (t: MoveInput)
    ensures t.playerId == input.player.id && t.lobbyId == LobbyIdOf(input.player)
    ensures t.time == input.time && t.moveType == input.moveType
    ensures t.tiles == Some(WireTiles(input.tiles)) && TilesOf(t) == input.tiles
    ensures t.pointValue == 0
  {
    var temp := MapTiles(input.tiles);
    UnwireWireTiles(input.tiles);
    t := MoveInput(input.player.id, LobbyIdOf(input.player), input.time, input.moveType,
                   Some(temp), 0);
  }

  /** Selecting and deselecting the same tiles with the same player, time
      and move type send the same record. */
  method SelectDeselectAgree(player: Player, time: int, moveType: string, tiles: seq<Tile>)
    returns (selected: MoveInput, deselected: MoveInput)
    ensures selected == deselected
    ensures selected.pointValue == 0 && TilesOf(selected) == tiles
  {
    selected := SelectMove(SelectTile(player, time, moveType, tiles));
    deselected := DeselectMove(DeselectTile(player, time, moveType, tiles));
  }

  /** A submit worth 0 points sends the same record as selecting its tiles. */
  method ZeroSubmitIsSelect(player: Player, time: int, moveType: string, tiles: seq<Tile>)
    returns (submitted: MoveInput, selected: MoveInput)
    ensures submitted == selected
  {
    submitted := SubmitMove(Submit(player, time, moveType, tiles, 0));
    selected := SelectMove(SelectTile(player, time, moveType, tiles));
  }
}
