/** One run of the program (main.go, main): fetch both listings, aggregate, write the report. */
module Pipeline {
  import opened Wrappers
  import opened Types
  import opened Games
  import opened Aggregate
  import opened Report

  const NflEventsUrl := "https://sports.core.api.espn.com/v2/sports/football/leagues/nfl/events"
  const CfbEventsUrl := "https://sports.core.api.espn.com/v2/sports/football/leagues/college-football/events"

  /** How a run ends. Console lines printed before a fatal exit are not kept. */
  datatype Outcome =
    | Aborted
      // a fetch, decode or time-format failure, or an NFL listing without a week
    | CreateFailed(fileName: string, console: seq<string>)
      // the report file could not be created: nothing is written
    | Interrupted(fileName: string, file: seq<string>, console: seq<string>)
      // the college listing has no week: the run stops after the NFL section
    | Written(fileName: string, file: seq<string>, console: seq<string>)

  /** The report file name for an NFL week (the home and Desktop directories are not modelled). */
  function ReportFileName(week: string): string
  {
    "NFL-Week-" + week + ".txt"
  }

  /**
   * The outcome of a run. `fetchEvent` stands for fetchAndDecodeEvent, `fetchGame` for the
   * per-game request and decoding in fetchGames, `statsOf` for fetchGameStats, `formatTime`
   * for FormatTime and `createFile` for whether os.Create succeeds on the file name.
   */
  function RunOutcome(fetchEvent: string -> Option<Event>, fetchGame: string -> Option<GameInfo>,
                      statsOf: string -> Option<Stats>, formatTime: string -> Option<string>,
                      createFile: string -> bool): Outcome
  {
    match fetchEvent(NflEventsUrl)
    case None => Aborted
    case Some(nfl) =>
      match fetchEvent(CfbEventsUrl)
      case None => Aborted
      case Some(cfb) =>
        ListingsOutcome(nfl.(eventType := NFL), cfb.(eventType := CFB), fetchGame, statsOf, formatTime, createFile)
  }

  /** The outcome once both listings are known, tagged with their competitions. */
  function ListingsOutcome(nflEvent: Event, cfbEvent: Event, fetchGame: string -> Option<GameInfo>,
                           statsOf: string -> Option<Stats>, formatTime: string -> Option<string>,
                           createFile: string -> bool): Outcome
  {
    match FetchedGames(nflEvent.items, NFL, fetchGame)
    case None => Aborted
    case Some(nflGames) =>
      match FetchedGames(cfbEvent.items, CFB, fetchGame)
      case None => Aborted
      case Some(cfbGames) =>
        match Process(nflGames, statsOf, formatTime)
        case None => Aborted
        case Some(nflOut) =>
          match Process(cfbGames, statsOf, formatTime)
          case None => Aborted
          case Some(cfbOut) =>
            ReportOutcome(nflEvent.meta.parameters.week, nflOut, cfbEvent.meta.parameters.week, cfbOut, createFile)
  }

  /** The outcome once both competitions are aggregated. */
  function ReportOutcome(nflWeeks: seq<string>, nflOut: Processed, cfbWeeks: seq<string>, cfbOut: Processed,
                         createFile: string -> bool): Outcome
  {
    var notices := nflOut.notices + cfbOut.notices;
    if |nflWeeks| == 0 then Aborted
    else
      var fileName := ReportFileName(nflWeeks[0]);
      if !createFile(fileName) then CreateFailed(fileName, notices)
      else if |cfbWeeks| == 0 then
        Interrupted(fileName, NflSection(nflWeeks[0], nflOut.rows),
                    notices + NflSection(nflWeeks[0], nflOut.rows))
      else
        Written(fileName, FileReport(nflWeeks[0], nflOut.rows, cfbWeeks[0], cfbOut.rows),
                notices + ConsoleReport(nflWeeks[0], nflOut.rows, cfbWeeks[0], cfbOut.rows))
  }

  method Run(fetchEvent: string -> Option<Event>, fetchGame: string -> Option<GameInfo>,
             statsOf: string -> Option<Stats>, formatTime: string -> Option<string>,
             createFile: string -> bool) returns (r: Outcome)
    ensures r == RunOutcome(fetchEvent, fetchGame, statsOf, formatTime, createFile)
  {
    var nflFetched := fetchEvent(NflEventsUrl);
    if nflFetched.None? { return Aborted; }
    var cfbFetched := fetchEvent(CfbEventsUrl);
    if cfbFetched.None? { return Aborted; }
    var nflEvent := nflFetched.value.(eventType := NFL);
    var cfbEvent := cfbFetched.value.(eventType := CFB);
    var nflGames := FetchGames(nflEvent, fetchGame);
    if nflGames.None? { return Aborted; }
    var cfbGames := FetchGames(cfbEvent, fetchGame);
    if cfbGames.None? { return Aborted; }
    var nflOutput := ProcessGame(nflGames.value, statsOf, formatTime);
    if nflOutput.None? { return Aborted; }
    var cfbOutput := ProcessGame(cfbGames.value, statsOf, formatTime);
    if cfbOutput.None? { return Aborted; }
    var notices := nflOutput.value.notices + cfbOutput.value.notices;
    if |nflEvent.meta.parameters.week| == 0 { return Aborted; }
    var nflWeek := nflEvent.meta.parameters.week[0];
    var fileName := ReportFileName(nflWeek);
    if !createFile(fileName) { return CreateFailed(fileName, notices); }
    if |cfbEvent.meta.parameters.week| == 0 {
      var nflFile, nflConsole := WriteNflSection(nflWeek, nflOutput.value.rows);
      return Interrupted(fileName, nflFile, notices + nflConsole);
    }
    var file, console := WriteReport(nflWeek, nflOutput.value.rows,
                                     cfbEvent.meta.parameters.week[0], cfbOutput.value.rows);
    return Written(fileName, file, notices + console);
  }

  /** Every game of the listing was fetched and none of them ended the run. */
  predicate ListingComplete(event: Event, fetchGame: string -> Option<GameInfo>,
                            statsOf: string -> Option<Stats>, formatTime: string -> Option<string>)
  {
    (forall i :: 0 <= i < |event.items| ==> fetchGame(event.items[i].ref).Some?) &&
    FetchedGames(event.items, event.eventType, fetchGame).Some? &&
    forall i :: 0 <= i < |FetchedGames(event.items, event.eventType, fetchGame).value| ==>
      !Fatal(FetchedGames(event.items, event.eventType, fetchGame).value[i], statsOf, formatTime)
  }

  /**
   * A run that gets as far as the report file has fetched every game of both listings, and
   * no game's odds fetch or kickoff time failed: a failure anywhere aborts the run rather
   * than dropping one game.
   */
  lemma RunReachesFileOnlyWithoutFailures(fetchEvent: string -> Option<Event>, fetchGame: string -> Option<GameInfo>,
                                          statsOf: string -> Option<Stats>, formatTime: string -> Option<string>,
                                          createFile: string -> bool)
    ensures !RunOutcome(fetchEvent, fetchGame, statsOf, formatTime, createFile).Aborted? ==>
      fetchEvent(NflEventsUrl).Some? && fetchEvent(CfbEventsUrl).Some? &&
      ListingComplete(fetchEvent(NflEventsUrl).value.(eventType := NFL), fetchGame, statsOf, formatTime) &&
      ListingComplete(fetchEvent(CfbEventsUrl).value.(eventType := CFB), fetchGame, statsOf, formatTime)
  {
    if RunOutcome(fetchEvent, fetchGame, statsOf, formatTime, createFile).Aborted? {
      return;
    }
    var nfl := fetchEvent(NflEventsUrl).value.(eventType := NFL);
    var cfb := fetchEvent(CfbEventsUrl).value.(eventType := CFB);
    FetchedGamesFailsIff(nfl.items, NFL, fetchGame);
    FetchedGamesFailsIff(cfb.items, CFB, fetchGame);
    ProcessFailsIff(FetchedGames(nfl.items, NFL, fetchGame).value, statsOf, formatTime);
    ProcessFailsIff(FetchedGames(cfb.items, CFB, fetchGame).value, statsOf, formatTime);
  }
}
