/**
 * Clients of the game that replay the examples of spec/lib/battle/game_spec.rb,
 * and a few consequences of the contracts, against the contracts alone.
 */
module GameExamples {
  import opened Wrappers
  import opened Fleet
  import opened Battle

  /** An illustrative seven-ship roster (the real one is configuration). */
  const Roster: seq<string> :=
    ["Carrier", "Battleship", "Cruiser", "Submarine", "Destroyer", "Destroyer", "Destroyer"]

  /** `{"id":"2746","x":7,"y":6}` */
  const Registered := NoReply.(id := Some("2746"), x := Some(7), y := Some(6))

  /** Construction, registration, and the preconditions of `register!` and `nuke`. */
  method RegisterExamples() {
    var game := new Game(Some("Bob"), Some("bob@example.com"), None, Roster);
    assert game.status == Init && |game.ships| == 7;

    var r, sent := game.Nuke(1, 2, NoReply);
    assert r == Failure(GameNotStartedYetError) && sent == None;

    r, sent := game.Register(Registered);
    assert r == Success(Registered) && sent == Some(RegisterRequest("Bob", "bob@example.com"));
    assert game.id == Some("2746") && game.coords == (Some(7), Some(6)) && game.status == Start;

    var resumed := new Game(None, None, Some("503"), Roster);
    assert resumed.status == Start;

    var nameless := new Game(Some(""), Some("bob@example.com"), None, Roster);
    r, sent := nameless.Register(Registered);
    assert r == Failure(PlayerNameNotSpecified) && sent == None && nameless.status == Init;

    var mailless := new Game(Some("Bob"), Some(""), None, Roster);
    r, sent := mailless.Register(Registered);
    assert r == Failure(PlayerEmailNotSpecified) && sent == None && mailless.id == None;
  }

  /** A miss, a hit that sinks the battleship, an error reply, then a lost game that goes on to a prize. */
  method NukeExamples() {
    var game := new Game(Some("Bob"), Some("bob@example.com"), None, Roster);
    var r, sent := game.Register(Registered);

    var miss := NoReply.(status := Some("miss"), x := Some(0), y := Some(6));
    r, sent := game.Nuke(5, 9, miss);
    assert sent == Some(NukeRequest(Some("2746"), 5, 9));
    assert game.nukeStatus == Some("miss") && game.coords == (Some(0), Some(6));
    assert game.status == Start && game.sunk == None && |game.ships| == 7;

    var hit := NoReply.(status := Some("hit"), sunk := Some("Battleship"), x := Some(1), y := Some(7));
    ghost var before := game.ships;
    assert IsFirstMatch(before, "Battleship", 1);
    r, sent := game.Nuke(5, 9, hit);
    RemoveFirstAt(before, "Battleship", 1);
    assert |game.ships| == 6 && game.nukeStatus == Some("hit") && game.status == Start;

    r, sent := game.Nuke(5, 9, NoReply);
    assert r == Success(NoReply) && game.status == Start && |game.ships| == 6;
    assert game.sunk == None && game.nukeStatus == None && game.coords == (None, None);

    var lost := NoReply.(gameStatus := Some("lost"));
    r, sent := game.Nuke(5, 9, lost);
    assert game.status == Defeat;

    var prize := NoReply.(gameStatus := Some("lost"), prize := Some("You've got the prize!"));
    r, sent := game.Nuke(5, 9, prize);
    assert r.Success? && game.status == Victory && game.prize == Some("You've got the prize!");

    r, sent := game.Nuke(5, 9, miss);
    assert r == Failure(GameAlreadyFinishedError) && sent == None;
  }

  /** Sinking the only ship of a one-ship fleet wins the game. */
  method LastShipExample() {
    var game := new Game(None, None, Some("503"), ["Submarine"]);
    var r, sent := game.Nuke(3, 3, NoReply.(sunk := Some("Submarine")));
    assert game.ships == [] && game.status == Victory && game.prize == None;
  }

  /**
   * Whatever the server answers, a run of nuke, register and nuke leaves the
   * fleet a subsequence of the fleet the game was built with.
   */
  method FleetNeverRegrows(roster: seq<string>, first: Reply, second: Reply, third: Reply) {
    var game := new Game(Some("Bob"), Some("bob@example.com"), Some("503"), roster);
    ghost var built := game.ships;
    var r, sent := game.Nuke(1, 1, first);
    ghost var afterFirst := game.ships;
    r, sent := game.Register(second);
    assert game.ships == afterFirst;
    r, sent := game.Nuke(2, 2, third);
    SubsequenceTransitive(game.ships, afterFirst, built);
    assert IsSubsequence(game.ships, built);
    SubsequenceShrinks(game.ships, built);
    assert |game.ships| <= |roster|;
  }
}
