# football-spreads in Dafny

This project models the core of a small Go program. The program fetches the football games of the
current week from a public sports API, professional (NFL) and college (CFB). For each game it
fetches the betting odds. It then writes a weekly point-spread report to a text file and to the
console. The model covers five parts of `main.go`:

- deriving the odds link of a game from its id and competition tag;
- resolving an event listing into game records (`fetchGames`);
- aggregating fetched games into report rows (`ProcessGame`): a game whose odds have no entries
  is skipped;
- rendering the two report sections. The file and the console get the same lines, except that
  the console also shows each college game's full name;
- one run of `main`: the order of the fetches, the `Week[0]` index panics and the failure to
  create the report file.

Network requests, JSON decoding, `FormatTime` and file creation are parameters of the model. The
first three are functions returning an Option, whose `None` result stands for the failure that
makes the program exit (`log.Fatal`). File creation is a `string -> bool` function `createFile`.
When it returns false, the program prints the error and returns normally (main.go:48-52); the
model's outcome for that path is `CreateFailed`. Each report line is one string; the newline that ends it is implied.

Modules: `Wrappers` (Option), `Types` (the records of `types.go`), `Odds`, `Games`, `Aggregate`,
`Report`, `Pipeline` (one run of `main`). Each loop of the source is a method. Its `ensures` ties
its result to a specification function, and lemmas about that function state what the source
promises.

Three behaviours of the code worth knowing:
- A failure to fetch or decode one game aborts the run (`log.Fatal`). It does not skip that game.
- A row's spread is copied from the first odds entry's `details` with no check, so it may be
  empty.
- The college title line keeps its two trailing spaces, and only the console shows the full name.

## Model

| member | source | states |
|---|---|---|
| `Odds.OddsLinkCases` | main.go:141-148 | tag "nfl" gives the nfl odds URL template and "cfb" the college-football one, with the game id in both path slots; any other tag gives the empty link |
| `Odds.GameIdOfIff` | main.go:141-148 | a link reads back as game id `id` exactly when the tag is "nfl" or "cfb" and the link is that tag's odds link for `id`, so every odds link of a known competition determines its game |
| `Odds.GameIdOfOddsLink` | main.go:141-148 | the game id is recovered from the odds link of either competition (round trip) |
| `Odds.OddsLinkInjective` | main.go:141-148 | within one competition, distinct game ids give distinct odds links |
| `Odds.LeaguesDisjoint` | main.go:143-145 | an NFL odds link never equals a college odds link |
| `Games.FetchGames` | main.go:125-153 | the loop's result equals `FetchedGames` of the listing, stopping at the first failed game fetch |
| `Games.FetchedGamesFailsIff` | main.go:128-139 | fetching the games of a listing fails iff some referenced game fails to fetch or decode |
| `Games.FetchedGamesInOrder` | main.go:125-153 | on success there is exactly one game per event item, in listing order; each is the decoded record with `statLink` set to the competition's odds link |
| `Games.FetchFailurePropagates` | main.go:129-139 | a failure on any prefix of the listing fails the whole listing (fatal abort) |
| `Aggregate.ProcessGame` | main.go:173-195 | the loop's result equals `Process` of the games, including the two notice lines printed for each skipped game |
| `Aggregate.ProcessFailurePropagates` | main.go:176-179 | a failure on any prefix of the games aborts the whole aggregation |
| `Aggregate.ProcessFailsIff` | main.go:176-187 | aggregation aborts iff some game's odds fetch fails, or some game with odds has an unparsable kickoff time |
| `Aggregate.KeptIndices` | main.go:181-185 | the kept positions are strictly increasing, in range, and are exactly the games whose odds have at least one entry |
| `Aggregate.ProcessIsFilterMap` | main.go:175-194 | the k-th row comes from the k-th kept game: its formatted date, short name, first odds entry's details as spread, and name; there are two notice lines per skipped game |
| `Aggregate.ProcessNotices` | main.go:181-184 | the printed notices are the two skip lines ("stat contains empty item. Continuing...", "statLink: <link>") of each skipped game, in game order |
| `Aggregate.KeptIndicesBound` | main.go:181-185 | there are never more kept positions than games |
| `Aggregate.RowsAtMostGames` | main.go:175-185 | never more rows than input games |
| `Aggregate.SkipsMiddleGame` | main.go:175-194 | of three games whose middle one has no odds entries, the rows are those of the first and third, in order |
| `Report.WriteNflSection` | main.go:54-76 | the line-by-line writes, with the break after the last row, produce `NflSection` on both sinks |
| `Report.WriteCfbSection` | main.go:77-93 | the writes produce the college section: the title, a rule and a blank line (the rule before the title closes the NFL section), then the rows, with the full name on the console only |
| `Report.WriteReport` | main.go:54-93 | the file gets the NFL section then the file college section; the console gets the NFL section then the console college section |
| `Report.EntriesAt` | main.go:83-93 | row k's lines start at line Width * k, and the whole block is Width lines per row (4 on file, 5 on console) |
| `Report.EntriesLength` | main.go:83-93 | the row block has 4 lines per row on the file and 5 on the console |
| `Report.NflSectionShape` | main.go:54-76 | the title line, then a 19-dash rule, then date, short name and spread per row; a 10-dash rule after every row except the last, which gets a blank line; then a 17-dash rule; with no rows the section is exactly the title and the two rules |
| `Report.CfbFileSectionShape` | main.go:77-93 | on the file, the college section is "College Week w" with two trailing spaces, a 17-dash rule and a blank line; then date, short name and spread per row, each row (the last included) followed by a 10-dash rule |
| `Report.CfbConsoleSectionShape` | main.go:77-93 | on the console, the college section has the same three header lines; each row is date, short name, full name, spread and a 10-dash rule |
| `Report.SinksShareNflSection` | main.go:54-93 | file and console agree up to the first college row; the console has exactly one more line per college row |
| `Report.ReportWithoutRows` | main.go:54-93 | with no rows, each sink gets exactly six lines: the NFL title, the 19-dash rule, one 17-dash rule, the college title, a 17-dash rule and a blank line |
| `Pipeline.Run` | main.go:23-93 | one run equals `RunOutcome`: any fatal fetch aborts it; an empty NFL week list aborts it before the file is created; a failed create writes nothing; an empty college week list stops it after the NFL section |
| `Pipeline.RunReachesFileOnlyWithoutFailures` | main.go:25-42 | a run that is not aborted fetched both listings and every game in them, and no game's odds fetch or time formatting failed |

## Left out

- HTTP requests, status checks and JSON decoding (main.go:109-123, 129-139, 156-171). Each is a
  function parameter returning an Option. The text that `fetchGameStats` prints just before a
  fatal exit is not modelled.
- `FormatTime` (main.go:97-107). It needs Go's time-layout parser and the time-zone database, so
  it is an uninterpreted parameter, and no format of its result is verified. The layout at line
  98 reads the minutes slot as `05` (seconds); the model does not look inside the layout.
- The home-directory lookup and the Desktop path join (main.go:44-46). Only the base file name
  `NFL-Week-<week>.txt` is modelled. Whether `os.Create` succeeds is a parameter. The error text
  printed when it fails is left out.
- Process exit, deferred `Close` calls and the unclosed output file. These are resource-lifetime
  concerns. A fatal exit is the `Aborted` outcome, and console lines printed before a fatal exit
  are dropped.
- The `Week[0]` index panics (main.go:46, 77) are modelled as outcomes (`Aborted`, `Interrupted`).
  The panic message is not modelled.
