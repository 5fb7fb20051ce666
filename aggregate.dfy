/** Turning fetched games into report rows (main.go, ProcessGame). */
module Aggregate {
  import opened Wrappers
  import opened Types

  /** The rows built so far and the lines ProcessGame prints for the games it skips. */
  datatype Processed = Processed(rows: seq<Output>, notices: seq<string>)

  /** The two console lines printed for a game whose odds resource has no entries. */
  function SkipNotices(game: GameInfo): seq<string>
  {
    ["stat contains empty item. Continuing...", "statLink: " + game.statLink]
  }

  /** A game whose odds fetch ends the run, or whose kickoff time cannot be formatted. */
  predicate Fatal(game: GameInfo, statsOf: string -> Option<Stats>, formatTime: string -> Option<string>)
  {
    match statsOf(game.statLink)
    case None => true
    case Some(stats) => |stats.items| > 0 && formatTime(game.date).None?
  }

  /** A game that becomes a row: its odds resource was fetched and has at least one entry. */
  predicate Kept(game: GameInfo, statsOf: string -> Option<Stats>)
  {
    statsOf(game.statLink).Some? && |statsOf(game.statLink).value.items| > 0
  }

  /** One step of ProcessGame: fetch the game's odds, then skip it, add its row, or fail. */
  function Visit(game: GameInfo, statsOf: string -> Option<Stats>, formatTime: string -> Option<string>,
                 acc: Processed): Option<Processed>
  {
    match statsOf(game.statLink)
    case None => None
    case Some(stats) =>
      if |stats.items| == 0 then Some(acc.(notices := acc.notices + SkipNotices(game)))
      else
        match formatTime(game.date)
        case None => None
        case Some(date) =>
          Some(acc.(rows := acc.rows + [Output(date, game.shortName, stats.items[0].details, game.name)]))
  }

  /**
   * The result of ProcessGame on `games`: None when the run ends (an odds fetch or decode
   * error, or an unparsable kickoff time). `statsOf` stands for fetchGameStats and
   * `formatTime` for FormatTime, None being their fatal outcomes.
   */
  function Process(games: seq<GameInfo>, statsOf: string -> Option<Stats>,
                   formatTime: string -> Option<string>): Option<Processed>
    decreases |games|
  {
    if games == [] then Some(Processed([], []))
    else
      match Process(games[..|games| - 1], statsOf, formatTime)
      case None => None
      case Some(acc) => Visit(games[|games| - 1], statsOf, formatTime, acc)
  }

  /** ProcessGame: visits the games in order, appending one row per game that has odds. */
  method ProcessGame(games: seq<GameInfo>, statsOf: string -> Option<Stats>,
                     formatTime: string -> Option<string>) returns (r: Option<Processed>)
    ensures r == Process(games, statsOf, formatTime)
  {
    var output: seq<Output> := [];
    var notices: seq<string> := [];
    for i := 0 to |games|
      invariant Process(games[..i], statsOf, formatTime) == Some(Processed(output, notices))
    {
      assert games[..i + 1][..i] == games[..i];
      var game := games[i];
      var stats := statsOf(game.statLink);
      if stats.None? {
        ProcessFailurePropagates(games, statsOf, formatTime, i + 1);
        return None;
      }
      if |stats.value.items| == 0 {
        notices := notices + SkipNotices(game);
        continue;
      }
      var date := formatTime(game.date);
      if date.None? {
        ProcessFailurePropagates(games, statsOf, formatTime, i + 1);
        return None;
      }
      var out := Output(date.value, game.shortName, stats.value.items[0].details, game.name);
      output := output + [out];
    }
    assert games[..|games|] == games;
    return Some(Processed(output, notices));
  }

  /** Once a prefix of the games ends the run, so do all the games. */
  lemma {:induction false} ProcessFailurePropagates(games: seq<GameInfo>, statsOf: string -> Option<Stats>,
                                                    formatTime: string -> Option<string>, k: nat)
    requires k <= |games|
    requires Process(games[..k], statsOf, formatTime).None?
    ensures Process(games, statsOf, formatTime).None?
    decreases |games| - k
  {
    if k < |games| {
      assert games[..k + 1][..k] == games[..k];
      ProcessFailurePropagates(games, statsOf, formatTime, k + 1);
    } else {
      assert games[..k] == games;
    }
  }

  /** The positions of the games that become rows, in increasing order. */
  function KeptIndices(games: seq<GameInfo>, statsOf: string -> Option<Stats>): (idx: seq<nat>)
    ensures forall k :: 0 <= k < |idx| ==> idx[k] < |games| && Kept(games[idx[k]], statsOf)
    ensures forall k, l :: 0 <= k < l < |idx| ==> idx[k] < idx[l]
    ensures forall i :: 0 <= i < |games| && Kept(games[i], statsOf) ==> i in idx
    decreases |games|
  {
    if games == [] then []
    else
      var n := |games| - 1;
      var rest := KeptIndices(games[..n], statsOf);
      assert forall i :: 0 <= i < n ==> games[..n][i] == games[i];
      if Kept(games[n], statsOf) then rest + [n] else rest
  }

  /** A run ends exactly when some game is fatal; otherwise nothing is lost. */
  lemma {:induction false} ProcessFailsIff(games: seq<GameInfo>, statsOf: string -> Option<Stats>,
                                           formatTime: string -> Option<string>)
    ensures Process(games, statsOf, formatTime).None? <==>
      exists i :: 0 <= i < |games| && Fatal(games[i], statsOf, formatTime)
    decreases |games|
  {
    if games != [] {
      var n := |games| - 1;
      ProcessFailsIff(games[..n], statsOf, formatTime);
      assert forall i :: 0 <= i < n ==> games[..n][i] == games[i];
      if Process(games[..n], statsOf, formatTime).None? {
        var i :| 0 <= i < n && Fatal(games[..n][i], statsOf, formatTime);
        assert Fatal(games[i], statsOf, formatTime);
      }
    }
  }

  /** The skip notices of the games with an empty odds resource, in game order. */
  function SkipLog(games: seq<GameInfo>, statsOf: string -> Option<Stats>): seq<string>
    decreases |games|
  {
    if games == [] then []
    else
      var last := games[|games| - 1];
      SkipLog(games[..|games| - 1], statsOf) +
        (if statsOf(last.statLink).Some? && |statsOf(last.statLink).value.items| == 0
         then SkipNotices(last) else [])
  }

  /**
   * ProcessGame is a filter-and-map: the rows correspond one to one, in order, to the games
   * with at least one odds entry; each copies the game's short name and name, formats its
   * date and takes the first entry's details as the spread. Two notice lines are printed per
   * skipped game; ProcessNotices says which.
   */
  lemma {:induction false} ProcessIsFilterMap(games: seq<GameInfo>, statsOf: string -> Option<Stats>,
                                              formatTime: string -> Option<string>)
    requires Process(games, statsOf, formatTime).Some?
    ensures var p := Process(games, statsOf, formatTime).value;
            var idx := KeptIndices(games, statsOf);
            |p.rows| == |idx| &&
            |p.notices| == 2 * (|games| - |idx|) &&
            forall k :: 0 <= k < |idx| ==>
              var g := games[idx[k]];
              var stats := statsOf(g.statLink).value;
              formatTime(g.date).Some? &&
              p.rows[k] == Output(formatTime(g.date).value, g.shortName, stats.items[0].details, g.name)
    decreases |games|
  {
     if games != [] {
      var n := |games| - 1;
      ProcessIsFilterMap(games[..n], statsOf, formatTime);
      assert forall i :: 0 <= i < n ==> games[..n][i] == games[i];
    }
  }

  /** The notices ProcessGame prints are the two skip lines of each skipped game, in game order. */
  lemma {:induction false} ProcessNotices(games: seq<GameInfo>, statsOf: string -> Option<Stats>,
                                          formatTime: string -> Option<string>)
    requires Process(games, statsOf, formatTime).Some?
    ensures Process(games, statsOf, formatTime).value.notices == SkipLog(games, statsOf)
    decreases |games|
  {
    if games != [] {
      ProcessNotices(games[..|games| - 1], statsOf, formatTime);
    }
  }

  /** ProcessGame never makes more rows than there are games. */
  lemma RowsAtMostGames(games: seq<GameInfo>, statsOf: string -> Option<Stats>,
                        formatTime: string -> Option<string>)
    requires Process(games, statsOf, formatTime).Some?
    ensures |Process(games, statsOf, formatTime).value.rows| <= |games|
  {
  }

  /** There are never more kept positions than games. */
  lemma {:induction false} KeptIndicesBound(games: seq<GameInfo>, statsOf: string -> Option<Stats>)
    ensures |KeptIndices(games, statsOf)| <= |games|
    decreases |games|
  {
    if games != [] {
      KeptIndicesBound(games[..|games| - 1], statsOf);
    }
  }

  /** Three games of which the middle one has no odds yet give the first and third rows. */
  lemma SkipsMiddleGame(a: GameInfo, b: GameInfo, c: GameInfo, statsOf: string -> Option<Stats>,
                        formatTime: string -> Option<string>)
    requires Kept(a, statsOf) && Kept(c, statsOf)
    requires statsOf(b.statLink) == Some(Stats([]))
    requires formatTime(a.date).Some? && formatTime(c.date).Some?
    ensures Process([a, b, c], statsOf, formatTime) ==
      Some(Processed(
        [Output(formatTime(a.date).value, a.shortName, statsOf(a.statLink).value.items[0].details, a.name),
         Output(formatTime(c.date).value, c.shortName, statsOf(c.statLink).value.items[0].details, c.name)],
        SkipNotices(b)))
  {
    var rowA := Output(formatTime(a.date).value, a.shortName, statsOf(a.statLink).value.items[0].details, a.name);
    var rowC := Output(formatTime(c.date).value, c.shortName, statsOf(c.statLink).value.items[0].details, c.name);
    var none: seq<GameInfo> := [];
    assert [a][..0] == none;
    assert Process(none, statsOf, formatTime) == Some(Processed([], []));
    assert Visit(a, statsOf, formatTime, Processed([], [])) == Some(Processed([] + [rowA], []));
    assert [a][|[a]| - 1] == a;
    assert Process([a], statsOf, formatTime) == Visit(a, statsOf, formatTime, Processed([], []));
    assert [] + [rowA] == [rowA];
    assert Process([a], statsOf, formatTime) == Some(Processed([rowA], []));
    assert [a, b][..1] == [a] && [a, b][1] == b;
    assert [] + SkipNotices(b) == SkipNotices(b);
    assert Process([a, b], statsOf, formatTime) == Visit(b, statsOf, formatTime, Processed([rowA], []));
    assert Process([a, b], statsOf, formatTime) == Some(Processed([rowA], SkipNotices(b)));
    assert [a, b, c][..2] == [a, b] && [a, b, c][2] == c;
    assert [rowA] + [rowC] == [rowA, rowC];
    assert Process([a, b, c], statsOf, formatTime) == Visit(c, statsOf, formatTime, Processed([rowA], SkipNotices(b)));
  }
}
