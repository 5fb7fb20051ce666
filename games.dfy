/** Resolving the game references of an event listing into game records (main.go, fetchGames). */
module Games {
  import opened Wrappers
  import opened Types
  import opened Odds

  /** A fetched game with the odds link of its competition stored in `statLink`. */
  function WithOddsLink(game: GameInfo, eventType: EventType): GameInfo
  {
    game.(statLink := OddsLink(eventType, game.id))
  }

  /**
   * The games referenced by `items` in listing order, tagged with the odds links of
   * competition `eventType`, or None when fetching or decoding any referenced game fails.
   * `fetchGame` stands for the HTTP request, the status check and the JSON decoding of one
   * game resource.
   */
  function FetchedGames(items: seq<EventItem>, eventType: EventType,
                        fetchGame: string -> Option<GameInfo>): Option<seq<GameInfo>>
    decreases |items|
  {
    if items == [] then Some([])
    else
      match FetchedGames(items[..|items| - 1], eventType, fetchGame)
      case None => None
      case Some(games) =>
        match fetchGame(items[|items| - 1].ref)
        case None => None
        case Some(game) => Some(games + [WithOddsLink(game, eventType)])
  }

  /** Fetches every referenced game in turn, stopping the run at the first failure. */
  method FetchGames(event: Event, fetchGame: string -> Option<GameInfo>) returns (r: Option<seq<GameInfo>>)
    ensures r == FetchedGames(event.items, event.eventType, fetchGame)
  {
    var games: seq<GameInfo> := [];
    var i := 0;
    while i < |event.items|
      invariant 0 <= i <= |event.items|
      invariant FetchedGames(event.items[..i], event.eventType, fetchGame) == Some(games)
    {
      assert event.items[..i + 1][..i] == event.items[..i];
      var fetched := fetchGame(event.items[i].ref);
      if fetched.None? {
        FetchFailurePropagates(event.items, event.eventType, fetchGame, i + 1);
        return None;
      }
      var game := fetched.value;
      var sl := "";
      if event.eventType == NFL {
        sl := Template("nfl", game.id);
      } else if event.eventType == CFB {
        sl := Template("college-football", game.id);
      }
      game := game.(statLink := sl);
      games := games + [game];
      i := i + 1;
    }
    assert event.items[..i] == event.items;
    return Some(games);
  }

  /** Once a prefix of the listing fails, the whole listing fails. */
  lemma {:induction false} FetchFailurePropagates(items: seq<EventItem>, eventType: EventType,
                                                  fetchGame: string -> Option<GameInfo>, k: nat)
    requires k <= |items|
    requires FetchedGames(items[..k], eventType, fetchGame).None?
    ensures FetchedGames(items, eventType, fetchGame).None?
    decreases |items| - k
  {
    if k < |items| {
      assert items[..k + 1][..k] == items[..k];
      FetchFailurePropagates(items, eventType, fetchGame, k + 1);
    } else {
      assert items[..k] == items;
    }
  }

  /** fetchGames fails exactly when some referenced game fails to fetch or decode. */
  lemma {:induction false} FetchedGamesFailsIff(items: seq<EventItem>, eventType: EventType,
                                                fetchGame: string -> Option<GameInfo>)
    ensures FetchedGames(items, eventType, fetchGame).None? <==>
      exists i :: 0 <= i < |items| && fetchGame(items[i].ref).None?
    decreases |items|
  {
    if items != [] {
      var n := |items| - 1;
      var prefix := items[..n];
      FetchedGamesFailsIff(prefix, eventType, fetchGame);
      if FetchedGames(prefix, eventType, fetchGame).None? {
        var i :| 0 <= i < n && fetchGame(prefix[i].ref).None?;
        assert prefix[i] == items[i];
      } else if fetchGame(items[n].ref).Some? {
        assert forall i :: 0 <= i < n ==> prefix[i] == items[i];
      }
    }
  }

  /**
   * When it succeeds, fetchGames yields one game per event item, in listing order, each the
   * decoded record carrying the odds link of the event's competition.
   */
  lemma {:induction false} FetchedGamesInOrder(items: seq<EventItem>, eventType: EventType,
                                               fetchGame: string -> Option<GameInfo>)
    requires FetchedGames(items, eventType, fetchGame).Some?
    ensures |FetchedGames(items, eventType, fetchGame).value| == |items|
    ensures forall i :: 0 <= i < |items| ==>
      fetchGame(items[i].ref).Some? &&
      FetchedGames(items, eventType, fetchGame).value[i] == WithOddsLink(fetchGame(items[i].ref).value, eventType)
    decreases |items|
  {
    if items != [] {
      var n := |items| - 1;
      var prefix := items[..n];
      FetchedGamesInOrder(prefix, eventType, fetchGame);
      assert forall i :: 0 <= i < n ==> prefix[i] == items[i];
    }
  }
}
