/** Deriving the odds resource of a game from its id and competition tag (main.go, fetchGames). */
module Odds {
  import opened Wrappers
  import opened Types

  const LeaguesPrefix := "http://sports.core.api.espn.com/v2/sports/football/leagues/"
  const EventsSegment := "/events/"
  const CompetitionsSegment := "/competitions/"
  const OddsQuery := "/odds?lang=en&region=us"

  /** The league path segment of a competition tag, if the tag has a template at all. */
  function League(eventType: EventType): Option<string>
  {
    if eventType == NFL then Some("nfl")
    else if eventType == CFB then Some("college-football")
    else None
  }

  /** The odds URL template of one league, with the game id in both slots. */
  function Template(league: string, id: string): string
  {
    LeaguesPrefix + league + EventsSegment + id + CompetitionsSegment + id + OddsQuery
  }

  /** The odds link that fetchGames stores in `StatLink`: the empty string for an unknown tag. */
  function OddsLink(eventType: EventType, id: string): string
  {
    match League(eventType)
    case Some(league) => Template(league, id)
    case None => ""
  }

  /** Reads the game id back out of an odds link of the given competition. */
  function GameIdOf(eventType: EventType, link: string): (r: Option<string>)
    ensures r.Some? ==> OddsLink(eventType, r.value) == link
  {
    match League(eventType)
    case None => None
    case Some(league) =>
      var p := LeaguesPrefix + league + EventsSegment;
      var fixed := |p| + |CompetitionsSegment| + |OddsQuery|;
      if |link| < fixed || (|link| - fixed) % 2 != 0 then None
      else
        var n := (|link| - fixed) / 2;
        var id := link[|p|..|p| + n];
        if Template(league, id) == link then Some(id) else None
  }

  /** "nfl" and "cfb" select the two templates; every other tag gives the empty link. */
  lemma OddsLinkCases(eventType: EventType, id: string)
    ensures eventType == NFL ==>
      OddsLink(eventType, id) ==
        "http://sports.core.api.espn.com/v2/sports/football/leagues/nfl/events/" + id +
        "/competitions/" + id + "/odds?lang=en&region=us"
    ensures eventType == CFB ==>
      OddsLink(eventType, id) ==
        "http://sports.core.api.espn.com/v2/sports/football/leagues/college-football/events/" + id +
        "/competitions/" + id + "/odds?lang=en&region=us"
    ensures eventType != NFL && eventType != CFB ==> OddsLink(eventType, id) == ""
  {
    if eventType == NFL {
      assert LeaguesPrefix + "nfl" + EventsSegment ==
        "http://sports.core.api.espn.com/v2/sports/football/leagues/nfl/events/";
    } else if eventType == CFB {
      assert LeaguesPrefix + "college-football" + EventsSegment ==
        "http://sports.core.api.espn.com/v2/sports/football/leagues/college-football/events/";
    }
  }

  /** The id slot of a link, cut out by its position, is the id. */
  lemma TemplateSlice(p: string, id: string, rest: string)
    ensures (p + id + rest)[|p|..|p| + |id|] == id
  {
    assert (p + id + rest)[|p|..|p| + |id|] == (p + (id + rest))[|p|..|p| + |id|];
    assert (p + (id + rest))[|p|..] == id + rest;
  }

  /** The game id can be read back from its odds link: the link determines the game. */
  lemma {:induction false} GameIdOfOddsLink(eventType: EventType, id: string)
    requires eventType == NFL || eventType == CFB
    ensures GameIdOf(eventType, OddsLink(eventType, id)) == Some(id)
  {
    var league := League(eventType).value;
    var p := LeaguesPrefix + league + EventsSegment;
    var link := Template(league, id);
    assert link == p + id + (CompetitionsSegment + id + OddsQuery);
    TemplateSlice(p, id, CompetitionsSegment + id + OddsQuery);
  }

  /** A link reads back as a game id exactly when it is that game's odds link of a known competition. */
  lemma GameIdOfIff(eventType: EventType, link: string, id: string)
    ensures GameIdOf(eventType, link) == Some(id) <==>
      (eventType == NFL || eventType == CFB) && link == OddsLink(eventType, id)
  {
    if (eventType == NFL || eventType == CFB) && link == OddsLink(eventType, id) {
      GameIdOfOddsLink(eventType, id);
    }
  }

  /** Within one competition, distinct games get distinct odds links. */
  lemma OddsLinkInjective(eventType: EventType, id1: string, id2: string)
    requires eventType == NFL || eventType == CFB
    requires OddsLink(eventType, id1) == OddsLink(eventType, id2)
    ensures id1 == id2
  {
    GameIdOfOddsLink(eventType, id1);
    GameIdOfOddsLink(eventType, id2);
  }

  /** An NFL odds link is never a college odds link. */
  lemma LeaguesDisjoint(id1: string, id2: string)
    ensures OddsLink(NFL, id1) != OddsLink(CFB, id2)
  {
  }
}
