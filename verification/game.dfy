/**
 * A client-side game of naval combat played against a remote server: the
 * state a player keeps (status, fleet, last coordinates, prize) and the two
 * operations, register and nuke, that check local preconditions, send one
 * request and fold the server's reply into that state.
 *
 * The network round trip is not modelled: each operation takes the reply the
 * server would give as a parameter and returns the request it would send
 * (`None` when it raises before sending anything).
 */
module Battle {
  import opened Wrappers
  import opened Fleet

  /** The status of a game; only `Start`, `Victory` and `Defeat` have setters. */
  datatype Status = Init | Start | Victory | Defeat

  /** The string the source stores for each status. */
  function Label(s: Status): string {
    match s
    case Init => "init"
    case Start => "start"
    case Victory => "victory"
    case Defeat => "defeat"
  }

  /** The keys of a server reply that the game reads; an absent key reads as `None`. */
  datatype Reply = Reply(
    id: Option<string>,
    x: Option<int>,
    y: Option<int>,
    sunk: Option<string>,
    status: Option<string>,
    gameStatus: Option<string>,
    prize: Option<string>)

  /** The reply held before any request is made (`{}`). */
  const NoReply := Reply(None, None, None, None, None, None, None)

  /** The body of the request sent to the server. */
  datatype Request =
    | RegisterRequest(name: string, email: string)
    | NukeRequest(gameId: Option<string>, x: int, y: int)

  /** The errors the game raises itself, always before any request. */
  datatype Error =
    | PlayerNameNotSpecified
    | PlayerEmailNotSpecified
    | GameNotStartedYetError
    | GameAlreadyFinishedError

  /** The fleet after the server reports `sunk`: nothing changes when it is absent. */
  function AfterSinking(fleet: seq<Ship>, sunk: Option<string>): (r: seq<Ship>)
    ensures sunk.None? ==> r == fleet
    ensures multiset(r) == multiset(fleet) - (if sunk.None? then multiset{} else multiset{Ship(sunk.value)})
    ensures IsSubsequence(r, fleet)
  {
    if sunk.None? then
      SubsequenceReflexive(fleet);
      fleet
    else
      RemoveFirstMultiset(fleet, sunk.value);
      RemoveFirstIsSubsequence(fleet, sunk.value);
      RemoveFirst(fleet, sunk.value)
  }

  /**
   * The fleet is empty after sinking, so `has_ships?` fails and `won?` holds,
   * exactly when it was empty already or its one ship is the one reported sunk.
   */
  lemma {:induction false} AfterSinkingEmpty(fleet: seq<Ship>, sunk: Option<string>)
    ensures AfterSinking(fleet, sunk) == [] <==> fleet == [] || (|fleet| == 1 && sunk == Some(fleet[0].name))
  {
    if sunk.Some? {
      RemoveFirstCount(fleet, sunk.value);
      if |fleet| == 1 && fleet[0].Is(sunk.value) {
        assert HasMatch(fleet, sunk.value);
      }
      if HasMatch(fleet, sunk.value) && |fleet| == 1 {
        assert fleet[0].Is(sunk.value);
      }
    }
  }

  /** True for a string that is absent or empty (`s.nil? || s.empty?`). */
  predicate Blank(s: Option<string>)
  {
    s.None? || s.value == ""
  }

  /**
   * No status is ever labelled "lost", the label `finished?` looks for. This
   * only documents the quirk; `Game.Finished` states its consequence.
   */
  lemma LostIsNoLabel(s: Status)
    ensures Label(s) != "lost"
  {
  }

  class Game {
    const name: Option<string>
    const email: Option<string>
    var id: Option<string>
    var coords: (Option<int>, Option<int>)
    var status: Status
    var ships: seq<Ship>
    var prize: Option<string>
    var response: Reply
    var nukeStatus: Option<string>
    var sunk: Option<string>

    /** A game with one ship per roster name, resumed (`Start`) when an id is given. */
    constructor (name: Option<string>, email: Option<string>, id: Option<string>, roster: seq<string>)
      ensures this.name == name && this.email == email && this.id == id
      ensures coords == (None, None)
      ensures status == (if id.Some? then Start else Init)
      ensures |ships| == |roster| && forall i :: 0 <= i < |roster| ==> ships[i] == Ship(roster[i])
      ensures response == NoReply
      ensures prize == None && nukeStatus == None && sunk == None
    {
      this.name := name;
      this.email := email;
      this.id := id;
      coords := (None, None);
      status := if id.Some? then Start else Init;
      response := NoReply;
      prize, nukeStatus, sunk := None, None, None;
      var fleet: seq<Ship> := [];
      var i := 0;
      while i < |roster|
        invariant 0 <= i <= |roster|
        invariant |fleet| == i && forall j :: 0 <= j < i ==> fleet[j] == Ship(roster[j])
      {
        fleet := fleet + [Ship(roster[i])];
        i := i + 1;
      }
      ships := fleet;
    }

    /** `init?` */
    predicate IsInit()
      reads this
      ensures IsInit() <==> status == Init
    {
      Label(status) == "init"
    }

    /** `finished?`: tests for "lost" or "victory", so a game in `Defeat` is not finished. */
    predicate Finished()
      reads this
      ensures Finished() <==> status == Victory
    {
      Label(status) == "lost" || Label(status) == "victory"
    }

    /** `has_ships?` */
    predicate HasShips()
      reads this
    {
      ships != []
    }

    /** `won?`: the last reply carries a prize, or no ship is left. */
    predicate Won()
      reads this
    {
      response.prize.Some? || !HasShips()
    }

    /**
     * `register!`: raises when the name, then the email, is absent or empty;
     * otherwise sends them and takes id and coordinates from the reply, and
     * starts the game whatever its status was.
     */
    method Register(reply: Reply) returns (r: Result<Reply, Error>, sent: Option<Request>)
      modifies this`id, this`coords, this`status, this`response
      ensures Blank(name) <==> r == Failure(PlayerNameNotSpecified)
      ensures !Blank(name) && Blank(email) <==> r == Failure(PlayerEmailNotSpecified)
      ensures r.Failure? <==> Blank(name) || Blank(email)
      ensures r.Failure? <==> sent.None?
      ensures r.Failure? ==> unchanged(this)
      ensures r.Success? ==> name.Some? && email.Some? && sent == Some(RegisterRequest(name.value, email.value))
      ensures r.Success? ==> r.value == reply && response == reply
      ensures r.Success? ==> id == reply.id && coords == (reply.x, reply.y) && status == Start
    {
      if Blank(name) {
        return Failure(PlayerNameNotSpecified), None;
      }
      if Blank(email) {
        return Failure(PlayerEmailNotSpecified), None;
      }
      sent := Some(RegisterRequest(name.value, email.value));
      response := reply;
      HandleRegister();
      r := Success(response);
    }

    /**
     * `nuke(x, y)`: raises when the game has not started, then when it is
     * finished; otherwise fires at (x, y) and runs the reply through the
     * handlers: sinking, nuke status, defeat, victory, coordinates.
     */
    method Nuke(x: int, y: int, reply: Reply) returns (r: Result<Reply, Error>, sent: Option<Request>)
      modifies this`response, this`sunk, this`ships, this`nukeStatus, this`status, this`prize, this`coords
      ensures old(status) == Init <==> r == Failure(GameNotStartedYetError)
      ensures old(status) == Victory <==> r == Failure(GameAlreadyFinishedError)
      ensures r.Failure? <==> old(status) == Init || old(status) == Victory
      ensures r.Failure? <==> sent.None?
      ensures r.Failure? ==> unchanged(this)
      ensures r.Success? ==> sent == Some(NukeRequest(id, x, y)) && r.value == reply && response == reply
      ensures r.Success? ==> sunk == reply.sunk && ships == AfterSinking(old(ships), reply.sunk)
      ensures r.Success? ==> nukeStatus == reply.status && coords == (reply.x, reply.y)
      ensures r.Success? && (reply.prize.Some? || ships == []) ==>
        status == Victory && prize == reply.prize
      ensures r.Success? && !(reply.prize.Some? || ships == []) && reply.gameStatus == Some("lost") ==>
        status == Defeat && prize == old(prize)
      ensures r.Success? && !(reply.prize.Some? || ships == []) && reply.gameStatus != Some("lost") ==>
        status == old(status) && prize == old(prize)
      ensures IsSubsequence(ships, old(ships))
    {
      if IsInit() {
        SubsequenceReflexive(ships);
        return Failure(GameNotStartedYetError), None;
      }
      if Finished() {
        SubsequenceReflexive(ships);
        return Failure(GameAlreadyFinishedError), None;
      }
      sent := Some(NukeRequest(id, x, y));
      response := reply;
      HandleNuke();
      r := Success(response);
    }

    /** The three status setters, each overwriting the status unconditionally. */
    method BeginGame()
      modifies this`status
      ensures status == Start
    {
      status := Start;
    }

    method DeclareVictory()
      modifies this`status
      ensures status == Victory
    {
      status := Victory;
    }

    method DeclareDefeat()
      modifies this`status
      ensures status == Defeat
    {
      status := Defeat;
    }

    /** `ships.find { |ship| ship.is? n }`: the index of the first ship called `n`. */
    method FindShip(n: string) returns (k: Option<nat>)
      ensures k.Some? ==> IsFirstMatch(ships, n, k.value)
      ensures k.None? ==> !HasMatch(ships, n)
    {
      var i := 0;
      while i < |ships|
        invariant 0 <= i <= |ships|
        invariant forall j :: 0 <= j < i ==> !ships[j].Is(n)
      {
        if ships[i].Is(n) {
          return Some(i);
        }
        i := i + 1;
      }
      return None;
    }

    /** `sink_ship(n)`: records `n` and removes the first ship of that name, if any. */
    method SinkShip(n: Option<string>)
      modifies this`sunk, this`ships
      ensures sunk == n
      ensures ships == AfterSinking(old(ships), n)
      ensures IsSubsequence(ships, old(ships))
    {
      sunk := n;
      if n.None? {
        SubsequenceReflexive(ships);
        return;
      }
      RemoveFirstIsSubsequence(ships, n.value);
      var k := FindShip(n.value);
      if k.Some? {
        RemoveFirstAt(ships, n.value, k.value);
        ships := ships[..k.value] + ships[k.value + 1..];
      } else {
        RemoveFirstNoMatch(ships, n.value);
      }
    }

    /** `handle_nuke`: the fixed pipeline applied to a nuke reply. */
    method HandleNuke()
      modifies this`sunk, this`ships, this`nukeStatus, this`status, this`prize, this`coords
      ensures sunk == response.sunk && ships == AfterSinking(old(ships), response.sunk)
      ensures IsSubsequence(ships, old(ships))
      ensures nukeStatus == response.status && coords == (response.x, response.y)
      ensures Won() ==> status == Victory && prize == response.prize
      ensures !Won() && response.gameStatus == Some("lost") ==> status == Defeat && prize == old(prize)
      ensures !Won() && response.gameStatus != Some("lost") ==> status == old(status) && prize == old(prize)
    {
      SinkShip(response.sunk);
      HandleNukeStatus();
      HandleDefeat();
      HandleVictory();
      AssignCoordinates();
    }

    /** `handle_victory`: on a prize or an empty fleet, victory, and the prize from the reply. */
    method HandleVictory()
      modifies this`status, this`prize
      ensures old(Won()) ==> status == Victory && prize == response.prize
      ensures !old(Won()) ==> status == old(status) && prize == old(prize)
    {
      if Won() {
        DeclareVictory();
        prize := response.prize;
      }
    }

    /** `handle_nuke_status`: the reply's `status`, present or not. */
    method HandleNukeStatus()
      modifies this`nukeStatus
      ensures nukeStatus == response.status
    {
      nukeStatus := response.status;
    }

    /** `handle_defeat`: defeat when the reply's `game_status` is "lost". */
    method HandleDefeat()
      modifies this`status
      ensures response.gameStatus == Some("lost") ==> status == Defeat
      ensures response.gameStatus != Some("lost") ==> status == old(status)
    {
      if response.gameStatus == Some("lost") {
        DeclareDefeat();
      }
    }

    /** `handle_register`: id and coordinates from the reply, then the game starts. */
    method HandleRegister()
      modifies this`id, this`coords, this`status
      ensures id == response.id && coords == (response.x, response.y) && status == Start
    {
      id := response.id;
      AssignCoordinates();
      BeginGame();
    }

    /** `assign_coordinates`: both coordinates from the reply, absent ones as `None`. */
    method AssignCoordinates()
      modifies this`coords
      ensures coords == (response.x, response.y)
    {
      coords := (response.x, response.y);
    }
  }
}
