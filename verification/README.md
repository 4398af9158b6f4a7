# Battle: the client-side game state

This project models `Battle::Game`, the client of a remote naval-combat
server. A game holds the player's name and email, the id the server gave it,
a status (`init`, `start`, `victory` or `defeat`), the fleet of ships still
afloat, the last coordinates the server reported, the last nuke outcome, the
last ship sunk, the prize and the last reply. It has two public operations:

- `register!` checks that a name and an email are present, sends them, then
  takes the id and start coordinates from the reply and starts the game.
- `nuke(x, y)` refuses a game that has not started or is finished, fires at
  `(x, y)`, then runs a fixed pipeline of handlers over the reply, in this
  order: sink a ship, record the nuke status, detect defeat, detect victory,
  record coordinates.

The server is not modelled. Each operation takes the reply the server would
give (`Battle.Reply`, one optional field per key the handlers read) and
returns the request it would send (`Battle.Request`). That request is `None`
when the operation raises before sending anything. A raised error is the
`Failure` side of a `Result`.

Files:

- `wrappers.dfy` holds `Option`, standing for Ruby's `nil`, and `Result`.
- `fleet.dfy` holds ships, matching by name, the removal done by `sink_ship`,
  and the subsequence relation that says the fleet never regrows.
- `game.dfy` holds the `Game` class. Every field the source updates is a
  `var`, and every handler is a method whose `modifies` clause names only the
  fields it writes, so each contract also says what stays the same.
  `has_ships?`, `won?` and the blank test of `register!` are the source's
  definitions, written as the predicates `HasShips`, `Won` and `Blank`. What
  they promise is stated by `Register` (the blank checks), `HandleVictory`,
  `HandleNuke` and `Nuke` (when the game is won), and `AfterSinkingEmpty`
  (when the fleet runs out).
- `scenarios.dfy` replays the examples of `spec/lib/battle/game_spec.rb`, and
  a few consequences of the contracts, against the contracts alone, using an
  illustrative seven-ship roster.

Quirks of the code, kept as written:

- `finished?` tests for `"lost"` or `"victory"`, but the defeat handler stores
  `"defeat"`. So only `Victory` blocks `nuke`. A game in `Defeat` can still be
  nuked, and a later reply can turn it into `Victory`. `Game.Finished` and
  `LostIsNoLabel` state this, and `GameExamples.NukeExamples` plays it out.
- `register!` has no status guard. It sets `Start` even after a victory.
- Defeat is checked before victory. When one reply triggers both, the game
  ends in `Victory`.
- Names in the roster may repeat. `sink_ship` removes only the first ship with
  the reported name (ships compare by identity; see Left out).

## Model

| member | source | states |
|---|---|---|
| `Battle.Game.constructor` | lib/battle/game.rb:8-17 | name, email and id are the arguments; coordinates are `(nil, nil)`; status is `Start` iff an id is given, else `Init`; one ship per roster name, in roster order; the reply is empty and prize, nuke status and sunk are nil |
| `Battle.Game.IsInit` | lib/battle/game.rb:39-41 | `init?` holds exactly when the status is `Init` |
| `Battle.Game.Finished` | lib/battle/game.rb:43-45 | `finished?` holds exactly when the status is `Victory`; a game in `Defeat` is not finished |
| `Battle.LostIsNoLabel` | lib/battle/game.rb:6-13 | no status the game can hold is labelled `"lost"` |
| `Battle.Game.Register` | lib/battle/game.rb:19-27 | a missing or empty name raises `PlayerNameNotSpecified`, checked first; then a missing or empty email raises `PlayerEmailNotSpecified`; these are the only failures; a failure sends no request and changes nothing; on success it sends `{name, email}`, returns the reply, sets id and coordinates from it and sets status to `Start` whatever it was; ships, prize, sunk and nuke status are unchanged |
| `Battle.Game.Nuke` | lib/battle/game.rb:29-37 | fails with `GameNotStartedYetError` iff the status was `Init`, and with `GameAlreadyFinishedError` iff it was `Victory` (so `Defeat` still nukes); a failure sends no request and changes nothing; on success it sends `{id, x, y}` and returns the reply; `sunk` comes from the reply and the fleet loses its first ship of that name; nuke status and both coordinates are overwritten from the reply even when absent; a prize or an empty fleet gives `Victory` with the reply's prize, which overrides a `"lost"` game status; otherwise `"lost"` gives `Defeat`; otherwise status and prize are unchanged; the fleet is always a subsequence of the fleet before |
| `Battle.AfterSinkingEmpty` | lib/battle/game.rb:65-71 | the fleet is empty after sinking, so `has_ships?` fails and `won?` holds, exactly when it was already empty or its only ship is the one reported sunk |
| `Battle.AfterSinking` | lib/battle/game.rb:59-63 | with no `sunk` the fleet is unchanged; otherwise exactly one ship of that name leaves it, if there is one; the fleet after is a subsequence of the fleet before |
| `Battle.Game.BeginGame` | lib/battle/game.rb:48-52 | the `start` setter sets status to `Start` and writes nothing else |
| `Battle.Game.DeclareVictory` | lib/battle/game.rb:48-52 | the `victory` setter sets status to `Victory` whatever it was |
| `Battle.Game.DeclareDefeat` | lib/battle/game.rb:48-52 | the `defeat` setter sets status to `Defeat` whatever it was |
| `Battle.Game.FindShip` | lib/battle/game.rb:62 | `ships.find`: returns the index of the first ship with the name, or none when no ship has it |
| `Battle.Game.SinkShip` | lib/battle/game.rb:59-63 | `sunk` is set to the name, nil included; a nil name leaves the fleet alone; otherwise the first ship with that name is removed; the fleet after is a subsequence of the fleet before |
| `Battle.Game.HandleNuke` | lib/battle/game.rb:73-79 | the five handlers in order: fleet after sinking, nuke status and coordinates from the reply; when `won?` holds on the fleet after sinking, `Victory` with the reply's prize; else `Defeat` on `"lost"`; else status and prize kept |
| `Battle.Game.HandleVictory` | lib/battle/game.rb:81-86 | when `won?` holds, status becomes `Victory` and the prize is the reply's, possibly nil; otherwise both are unchanged |
| `Battle.Game.HandleNukeStatus` | lib/battle/game.rb:88-90 | the nuke status is the reply's `status`, nil when absent |
| `Battle.Game.HandleDefeat` | lib/battle/game.rb:92-94 | status becomes `Defeat` iff the reply's `game_status` is `"lost"`, otherwise it is unchanged |
| `Battle.Game.HandleRegister` | lib/battle/game.rb:96-100 | id and coordinates come from the reply, status becomes `Start` |
| `Battle.Game.AssignCoordinates` | lib/battle/game.rb:102-104 | coordinates are the reply's `x` and `y`, each nil when absent |
| `Fleet.RemoveFirst` | lib/battle/game.rb:62 | deleting from `ships` the first ship `find` returns: the fleet never gets longer (the lemmas below say exactly what is removed) |
| `Fleet.RemoveFirstAt` | lib/battle/game.rb:62 | when `k` is the first ship with the name, removal takes out exactly position `k` and keeps the rest in order |
| `Fleet.RemoveFirstNoMatch` | lib/battle/game.rb:62 | when no ship has the name, the fleet is unchanged |
| `Fleet.RemoveFirstCount` | lib/battle/game.rb:59-63 | the fleet shrinks by exactly one iff some ship has the name, and is unchanged iff none has |
| `Fleet.RemoveFirstMultiset` | lib/battle/game.rb:62 | exactly one ship of that name leaves the fleet, if there is one, and no other ship does |
| `Fleet.RemoveFirstIsSubsequence` | lib/battle/game.rb:62 | the ships that remain keep their relative order |
| `Fleet.SubsequenceTransitive` | lib/battle/game.rb:59-63 | subsequences compose, so over any run of `register!` and `nuke` calls the fleet stays a subsequence of the fleet the game was built with (`GameExamples.FleetNeverRegrows` chains it over nuke, register, nuke) |
| `Fleet.SubsequenceShrinks` | lib/battle/game.rb:59-63 | a fleet that is a subsequence of another is no longer and holds no ship the other lacks |

## Left out

- `do_request` (lib/battle/game.rb:54-57) is left out. The HTTP POST, the JSON encoding and parsing, the headers and the endpoint URLs are I/O. They are replaced by the reply parameter and the returned request. Transport failures are not modelled.
- The roster `Battle.ships` and the `Ship` class are not part of this model. The roster is a constructor parameter. `Ship#is?` is taken to be name equality. Ships are taken to compare by identity, so `delete` removes exactly the ship `find` returned.
- The `define_method` loop over `STATUSES` (lib/battle/game.rb:48-52) is not reproduced as reflection. It becomes the three setters `BeginGame`, `DeclareVictory` and `DeclareDefeat`.
- The reply keeps only the seven keys the handlers read. Other keys are dropped, such as `error` in a server error payload. That payload is the reply with none of the seven keys, and `Nuke` returns that record rather than the error text.
- JSON value types are fixed. `id`, `sunk`, `status`, `game_status` and `prize` are strings, and `x` and `y` are integers. A reply carrying another JSON type under these keys is not modelled. The integer id `503` used at construction in the test suite is written as a string.
- Attribute readers are not separate members, because the fields are public.
- Ruby exceptions are not modelled as control flow. They become the `Failure` side of the returned `Result`.
