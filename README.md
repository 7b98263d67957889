# Memory game server: verified model of the game engine

This Dafny project models the engine of a small server for the card game
"memory". The server keeps a single process-wide store. The store holds an
optional game and the administrator's master key. A game (`Memory`) has an
id, a map from bearer tokens to players, a lifecycle state (Lobby, Running,
Finished) and a board of 54 cards. The request handlers `create`, `join`,
`ready`, `pick_card`, `ping` and `check_key` read or change the store, and
`handle_rejection` turns their rejections into HTTP replies.

Modules:

- `Reject` (reject.dfy) covers the rejection causes and `handle_rejection`.
  A warp rejection is modelled as the set of custom causes it carries. The
  generic `warp::reject()` is the empty set. Status codes follow RFC 9110.
- `MemoryGame` (memory.dfy) covers cards, players, the game record and
  `Memory::new`. An image is its index into the 27-entry `LINKS` table.
  `Memory::new` deals 9 × 6 face-down cards, giving slot `i` image `i / 2`.
  It then shuffles them with the slice shuffle of the `rand` crate: a
  Fisher–Yates pass from the last slot down, done in place on an array.
  The random generator is a parameter `draw`. The index drawn at position
  `i` is `draw(i) % (i + 1)`.
- `Handler` (handler.dfy) covers the handlers. Each handler that changes the
  game has a step function on game values (`JoinStep`, `ReadyStep`,
  `PickStep`). The class `Store` has the fields `game` and `masterKey`. Its
  methods make the source's updates and are proved equal to the step
  functions. `Ping` and `CheckKey` are read-only functions of the store.

The model follows the code as written, which does less than a full memory
game:

- no card is ever turned back face down;
- there is no "resolved" state and no turn rotation;
- `pick_card` does not check that the game is Running;
- `join` checks neither the lobby state nor duplicate names;
- `join` and `pick_card` never read the game id of their query, so a request
  naming another game's id is served against the current game;
- `ready` sets Running without giving anyone the turn, and it does so even on
  a Finished game. Nothing ever sets Finished.

`pick_card` compares the new card with the lowest-index face-up card,
computed before the flip. That card changes whenever a lower slot is turned
face up.

A consequence is proved in `NewGameTurnless` and `TurnNeverGiven`: a new
game has no player holding the turn, and no handler ever gives a player the
turn. So from every game the handlers can reach, `pick_card` rejects every
request. The properties of a successful pick are still proved, for any game.

`pick_card` rejects with warp's generic rejection. No custom cause
matches it, so `handle_rejection` answers it with status 500.

`join`, `ready` and `pick_card` call `unwrap` on the game, and without a game
that call panics. The model states this as the precondition
`game.Some?`.

## Model

| member | source | states |
|---|---|---|
| Reject.HandleRejection | src/lib.rs:50-88 | The status is 500 exactly when the rejection carries no custom cause. It is 401 exactly when it carries InvalidToken or InvalidMasterKey. |
| Reject.FirstCauseDecides | src/lib.rs:51-81 | The causes are looked for in the fixed order InvalidToken, InvalidMasterKey, AlreadyExists, NoGameExists. The first one present decides the status, whatever other causes the rejection carries. |
| Reject.SingleCauseStatus | src/lib.rs:51-81 | A rejection with one custom cause gets that cause's status: 401, 401, 409 or 404. This is always a 4xx client error. |
| MemoryGame.NewCard | src/lib.rs:111-118 | `Card::new` gives a face-down card with the given image. The whole new board being face down is proved in `IsNewMemory`'s `FlippedSlots == {}`. |
| MemoryGame.NewPlayer | src/lib.rs:131-142 | `Player::new` gives a player with the given name, 0 points, no turn and not ready. `JoinStep`'s ensures state the same of the player `join` inserts. |
| MemoryGame.DealtPairCount | src/lib.rs:164-170 | The first `2k` dealt slots (slot `i` gets image `i / 2`) hold each of images `0 .. k-1` exactly twice and no other image. |
| MemoryGame.ShuffleDownPermutes | src/lib.rs:172 | The shuffle keeps the length and the multiset of elements: it only permutes. |
| MemoryGame.ShuffleDownImages | src/lib.rs:172 | Shuffling a board moves each card's image with the card: the images of the shuffled board are the shuffled images. |
| MemoryGame.ShuffledKeepsBoard | src/lib.rs:172 | A shuffled board has the same length, the same cards and the same multiset of images as the board before the shuffle. |
| MemoryGame.Shuffle | src/lib.rs:172 | The in-place Fisher–Yates pass leaves the array equal to `Shuffled` of its old contents under the given draws. |
| MemoryGame.NewMemory | src/lib.rs:158-180 | The new game has the given id, no players and state Lobby. It has 54 = 9 × 6 cards, all face down, with each of the 27 images on exactly two slots. The board is exactly the dealt board shuffled by the draws. The dealing loop keeps the image index equal to `i / 2`, so it never exceeds 26. |
| Handler.JoinStep | src/handler.rs:79-85 | `join` maps the token to a player with the given name, 0 points, no turn and not ready. Every other player, the board, the id and the state are unchanged. |
| Handler.ReadyStep | src/handler.rs:145-162 | An unknown token is rejected with InvalidToken and nothing changes. A known token gets `ready` set, and nothing else about any player changes. The reply is Started exactly when every player is now ready, and then the state becomes Running. Otherwise the reply is Success and the state is unchanged. |
| Handler.FirstFlipped | src/handler.rs:116 | Gives the first face-up slot in index order, or none exactly when no card is face up. |
| Handler.PickStep | src/handler.rs:106-143 | A pick is rejected, with the generic rejection and no change, exactly when the token is unknown, the player is not on turn, the index is out of range, or the card is already face up. On success, exactly the target card turns face up and the images stay. If a card was face up before, an equal image gives the player one more point and keeps the turn. A different image clears the turn and keeps the points. On the first pick the player is unchanged. No other player changes. The reply carries the target's image and the resulting turn. |
| Handler.JoinKeepsConsistent | src/handler.rs:79-85 | `join` keeps the game consistent. Consistent means: a paired board of 54 cards, never Finished, and no score above the number of face-up cards. |
| Handler.ReadyKeepsConsistent | src/handler.rs:153-161 | `ready` keeps the game consistent. |
| Handler.PickKeepsConsistent | src/handler.rs:122-139 | `pick_card` keeps the game consistent. Each pick turns one more card face up and adds at most one point, so the `usize` score can never overflow. |
| Handler.StepsEvolve | src/handler.rs:106-162 | Three handlers only move a non-finished game forward: `ready`, `pick_card`, and `join` with a token not yet in use. Forward means: same id and images, face-up cards stay face up, the state never goes back from Running to Lobby, no player disappears and no score decreases. |
| Handler.ReadyIdempotent | src/handler.rs:153-161 | Calling `ready` twice with the same token gives the same reply and game as calling it once. |
| Handler.TurnNeverGiven | src/handler.rs:109-115 | If no player has the turn, none has it after `join` or `ready` either, and every `pick_card` is rejected without change. |
| Handler.NewGameTurnless | src/lib.rs:174-179 | A game built by `Memory::new` has no players, so nobody holds the turn. This starts the chain `TurnNeverGiven` continues. |
| Handler.Store.constructor | src/main.rs:33-36 | The server starts with no game and the master key it was given. |
| Handler.Store.Ping | src/handler.rs:12-34 | `ping` rejects exactly when there is no game, and then with NoGameExists. Otherwise it always replies Ok with the game id. The status is 410 Gone exactly when a token is presented that is not a player of the game, and 200 otherwise. |
| Handler.Store.CheckKey | src/handler.rs:36-50 | Succeeds exactly when the key equals the master key. Otherwise it rejects with InvalidMasterKey, which is answered with 401. The store is only read. |
| Handler.Store.Create | src/handler.rs:52-70 | A wrong key gives InvalidMasterKey. The right key while a game exists gives AlreadyExists. In both cases the store is unchanged. Otherwise the store holds a new game with the given id, as `NewMemory` describes: it satisfies `IsNewMemory`, and its board is the dealt board shuffled by the draws. The master key never changes. |
| Handler.Store.Join | src/handler.rs:72-97 | The store's game becomes the `JoinStep` game and the reply is the token. Consistency is kept. |
| Handler.Store.Ready | src/handler.rs:145-162 | The ready flag is set, then a loop over the players looks for one who is not ready. Reply and new game are those of `ReadyStep`, and consistency is kept. |
| Handler.Store.PickCard | src/handler.rs:106-143 | Turn check, first face-up card, bounds and face-up checks, then flip and score. Reply and new game are those of `PickStep`, and consistency is kept. |

## Left out

- Routing, CORS, cookies, query parsing, static image delivery and reading
  the port and key from the environment (src/main.rs) are plumbing around
  the engine. Only the initial store is modelled, as the `Store` constructor.
- The `Set-Cookie` and other header strings of the replies, the log output,
  and the literal addresses in `LINKS` are not modelled. An image is its
  index into `LINKS`.
- The live-update handler `game_message` and each player's channel pair are
  asynchronous streaming I/O and are not modelled.
- The `RwLock` around the store and the async lock acquisition are not
  modelled. Each handler is one atomic step.
- The lock use in `pick_card` is not modelled. It takes a read guard
  (src/handler.rs:107) and then asks for the write guard (line 118). Read
  from the source, the read guard is shadowed but not dropped, and
  `other_card` still borrows from it (used at line 128). tokio's
  `RwLock::write` waits until every read guard is released. So a pick that
  passes the turn check would wait at line 118 forever. Because the lock is
  fair, every later request on the store would queue behind it.
  `PickStep`'s success branch is the reading of `pick_card` as one atomic
  step, with the earlier face-up card computed before the flip.
  `TurnNeverGiven` shows that branch is never reached, since no player ever
  holds the turn.
- Randomness is not modelled as such. The join token is a parameter, and the
  shuffle's random draws are the parameter `draw`.
- Handler.Store.Join: a panic from `unwrap` when there is no game is a
  precondition (`game.Some?`), not an outcome.
- Handler.Store.Ready: a panic from `unwrap` when there is no game is a
  precondition (`game.Some?`), not an outcome.
- Handler.Store.PickCard: a panic from `unwrap` when there is no game is a
  precondition (`game.Some?`), not an outcome.
- A `delete` handler is routed in src/main.rs, but its code is not in
  src/handler.rs. It is not part of this model.
