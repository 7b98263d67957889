/** Model of src/handler.rs: the request handlers as atomic steps on the one
    process-wide store. Each handler that changes the game is specified by a
    step function on game values (JoinStep, ReadyStep, PickStep); the methods
    of Store carry out the source's updates and are proved to agree with them. */
module Handler {
  import opened MemoryGame
  import opened Reject

  /** A handler either replies or rejects the request. */
  datatype Reply<T> = Ok(value: T) | Rejected(rejection: Rejection)

  /** The reply of a handler together with the game after the request. */
  datatype Outcome<T> = Outcome(reply: Reply<T>, game: Memory)

  /** The JSON strings "Success" and "Started" that `ready` answers with. */
  datatype ReadyStatus = Success | Started

  /** `PickResponse`: the image of the picked card and whether the player keeps the turn. */
  datatype PickResponse = PickResponse(img: Image, turn: bool)

  /** The reply to `ping`: a status code and the game id as body. */
  datatype Pong = Pong(status: nat, id: string)

  /** What every handler keeps true of the game: the board is the paired board
      of `Memory::new`, no handler ever finishes the game, and no player has
      more points than there are face-up cards (so the `usize` score can
      never overflow). */
  ghost predicate Consistent(g: Memory)
  {
    && PairedBoard(g.cards)
    && g.state != Finished
    && forall t :: t in g.players ==> g.players[t].points <= |FlippedSlots(g.cards)|
  }

  /** How a game may change from one request to a later one: same id and
      images, face-up cards stay face up, the lifecycle never goes back, no
      player leaves and no score goes down. */
  ghost predicate Evolves(g: Memory, g': Memory)
  {
    && g'.id == g.id
    && Images(g'.cards) == Images(g.cards)
    && FlippedSlots(g.cards) <= FlippedSlots(g'.cards)
    && Rank(g.state) <= Rank(g'.state)
    && g.players.Keys <= g'.players.Keys
    && forall t :: t in g.players ==> g.players[t].points <= g'.players[t].points
  }

  /** No player holds the turn. */
  ghost predicate Turnless(g: Memory)
  {
    forall t :: t in g.players ==> !g.players[t].turn
  }

  predicate AllReady(players: map<Token, Player>)
  {
    forall t :: t in players ==> players[t].ready
  }

  // ---------------------------------------------------------------------------
  // join

  /** `join`: the token maps to a fresh player; nothing else changes. A token
      already in use is overwritten, as `HashMap::insert` does. */
  function JoinStep(g: Memory, token: Token, name: string): (o: Outcome<Token>)
    ensures o.reply == Ok(token)
    ensures o.game.players.Keys == g.players.Keys + {token}
    ensures var p := o.game.players[token]; p.name == name && p.points == 0 && !p.turn && !p.ready
    ensures forall t :: t in g.players && t != token ==> o.game.players[t] == g.players[t]
    ensures o.game.id == g.id && o.game.state == g.state && o.game.cards == g.cards
  {
    Outcome(Ok(token), g.(players := g.players[token := NewPlayer(name)]))
  }

  // ---------------------------------------------------------------------------
  // ready

  /** `ready`: mark the player ready, and start the game once every player is. */
  function ReadyStep(g: Memory, token: Token): (o: Outcome<ReadyStatus>)
    ensures token !in g.players ==> o == Outcome(Rejected({InvalidToken}), g)
    ensures token in g.players ==>
      && o.reply.Ok?
      && o.game.players.Keys == g.players.Keys
      && o.game.players[token] == g.players[token].(ready := true)
      && (forall t :: t in g.players && t != token ==> o.game.players[t] == g.players[t])
      && o.game.id == g.id && o.game.cards == g.cards
      && (o.reply.value == Started <==> forall t :: t in o.game.players ==> o.game.players[t].ready)
      && o.game.state == (if o.reply.value == Started then Running else g.state)
  {
    if token !in g.players then Outcome(Rejected({InvalidToken}), g)
    else
      var players := g.players[token := g.players[token].(ready := true)];
      if AllReady(players) then Outcome(Ok(Started), g.(players := players, state := Running))
      else Outcome(Ok(Success), g.(players := players))
  }

  // ---------------------------------------------------------------------------
  // pick_card

  /** `cards.iter().find(|x| x.flipped)`: the first face-up slot in index order. */
  function FirstFlipped(cards: seq<Card>): (r: Option<nat>)
    ensures r.Some? ==> r.value < |cards| && cards[r.value].flipped
    ensures r.Some? ==> forall k :: 0 <= k < r.value ==> !cards[k].flipped
    ensures r.None? <==> forall k :: 0 <= k < |cards| ==> !cards[k].flipped
  {
    if cards == [] then None
    else if cards[0].flipped then Some(0)
    else
      match FirstFlipped(cards[1..])
      case None => None
      case Some(k) => Some(k + 1)
  }

  /** `pick_card`: a player on turn turns a face-down card up. If another card
      already lay face up, a matching image scores a point and a different one
      loses the turn. */
  function PickStep(g: Memory, token: Token, index: nat): (o: Outcome<PickResponse>)
    // rejections, all with warp's generic rejection, leave the game as it was
    ensures o.reply.Rejected? <==>
      token !in g.players || !g.players[token].turn || index >= |g.cards| || g.cards[index].flipped
    ensures o.reply.Rejected? ==> o.reply.rejection == {} && o.game == g
    // on success exactly the target card turns face up
    ensures o.reply.Ok? ==>
      && o.game.id == g.id && o.game.state == g.state
      && Images(o.game.cards) == Images(g.cards)
      && FlippedSlots(o.game.cards) == FlippedSlots(g.cards) + {index}
      && index !in FlippedSlots(g.cards)
    // only the picking player changes, compared with the first face-up card
    ensures o.reply.Ok? ==>
      && o.game.players.Keys == g.players.Keys
      && (forall t :: t in g.players && t != token ==> o.game.players[t] == g.players[t])
      && o.game.players[token].name == g.players[token].name
      && o.game.players[token].ready == g.players[token].ready
      && match FirstFlipped(g.cards)
         case None => o.game.players[token] == g.players[token]
         case Some(k) =>
           if g.cards[k].img == g.cards[index].img
           then o.game.players[token].points == g.players[token].points + 1
                && o.game.players[token].turn
           else o.game.players[token].points == g.players[token].points
                && !o.game.players[token].turn
    // the reply shows the target image and the turn as it now stands
    ensures o.reply.Ok? ==> o.reply.value == PickResponse(g.cards[index].img, o.game.players[token].turn)
  {
    if token !in g.players || !g.players[token].turn then Outcome(Rejected({}), g)
    else if index >= |g.cards| || g.cards[index].flipped then Outcome(Rejected({}), g)
    else
      var card := g.cards[index];
      var player := g.players[token];
      var player' :=
        match FirstFlipped(g.cards)
        case None => player
        case Some(k) =>
          if g.cards[k].img == card.img then player.(points := player.points + 1)
          else player.(turn := false);
      var cards' := g.cards[index := card.(flipped := true)];
      assert Images(cards') == Images(g.cards);
      assert FlippedSlots(cards') == FlippedSlots(g.cards) + {index};
      Outcome(Ok(PickResponse(card.img, player'.turn)),
              g.(cards := cards', players := g.players[token := player']))
  }

  // ---------------------------------------------------------------------------
  // Invariants of the steps

  lemma JoinKeepsConsistent(g: Memory, token: Token, name: string)
    requires Consistent(g)
    ensures Consistent(JoinStep(g, token, name).game)
  {
  }

  lemma ReadyKeepsConsistent(g: Memory, token: Token)
    requires Consistent(g)
    ensures Consistent(ReadyStep(g, token).game)
  {
  }

  /** A pick adds one face-up card and at most one point to one player. */
  lemma PickKeepsConsistent(g: Memory, token: Token, index: nat)
    requires Consistent(g)
    ensures Consistent(PickStep(g, token, index).game)
  {
  }

  /** Every step moves the game forward in the sense of Evolves; for `join`
      this needs a token not yet in use, as the random 30-character tokens are.
      `ready` sets Running whatever the state was, so a Finished game (which
      no handler produces) would go back. */
  lemma StepsEvolve(g: Memory, token: Token, name: string, index: nat)
    requires g.state != Finished
    ensures token !in g.players ==> Evolves(g, JoinStep(g, token, name).game)
    ensures Evolves(g, ReadyStep(g, token).game)
    ensures Evolves(g, PickStep(g, token, index).game)
  {
  }

  /** Readying twice is readying once. */
  lemma ReadyIdempotent(g: Memory, token: Token)
    ensures ReadyStep(ReadyStep(g, token).game, token) == ReadyStep(g, token)
  {
  }

  /** No handler ever gives a player the turn: a new game has no players,
      `join` adds players without it and `ready` starts the game without
      assigning it. Hence, from any game these handlers reach, `pick_card`
      rejects every request. */
  lemma TurnNeverGiven(g: Memory, token: Token, name: string, picker: Token, index: nat)
    requires Turnless(g)
    ensures Turnless(JoinStep(g, token, name).game)
    ensures Turnless(ReadyStep(g, token).game)
    ensures PickStep(g, picker, index) == Outcome(Rejected({}), g)
  {
  }

  /** A game just built by `Memory::new` has no players, so nobody holds the
      turn: TurnNeverGiven applies from the moment a game is created. */
  lemma NewGameTurnless(m: Memory, id: string)
    requires IsNewMemory(m, id)
    ensures Turnless(m)
  {
  }

  // ---------------------------------------------------------------------------
  // The store

  /** `MemoryStore`: at most one game and the administrator's key. */
  class Store {
    var game: Option<Memory>
    var masterKey: string

    ghost predicate Valid()
      reads this
    {
      game.Some? ==> Consistent(game.value)
    }

    /** The store the server starts with: no game, the key from the environment. */
    constructor (key: string)
      ensures Valid()
      ensures game == None && masterKey == key
    {
      game := None;
      masterKey := key;
    }

    /** `ping`: the game id, with status GONE when the presented token is not
        (or no longer) a player of the game. */
    function Ping(token: Option<Token>): (r: Reply<Pong>)
      reads this
      ensures r.Rejected? <==> game.None?
      ensures r.Rejected? ==> r.rejection == {NoGameExists}
      ensures r.Ok? ==> r.value.id == game.value.id
      ensures r.Ok? ==> (r.value.status == GONE <==> token.Some? && token.value !in game.value.players)
      ensures r.Ok? ==> (r.value.status == OK <==> !(token.Some? && token.value !in game.value.players))
    {
      if game.None? then Rejected({NoGameExists})
      else if token.Some? && token.value !in game.value.players then Ok(Pong(GONE, game.value.id))
      else Ok(Pong(OK, game.value.id))
    }

    /** `check_key`: accepts exactly the administrator's key. */
    function CheckKey(key: string): (r: Reply<()>)
      reads this
      ensures r.Ok? <==> key == masterKey
      ensures r.Rejected? ==> r.rejection == {InvalidMasterKey}
      ensures r.Rejected? ==> HandleRejection(r.rejection).status == UNAUTHORIZED
    {
      if masterKey == key then Ok(()) else Rejected({InvalidMasterKey})
    }

    /** `create`: with the right key and no game yet, open a new game. */
    method Create(key: string, id: string, draw: nat -> nat) returns (r: Reply<()>)
      requires Valid()
      modifies this`game
      ensures Valid()
      ensures key != masterKey ==> r == Rejected({InvalidMasterKey}) && game == old(game)
      ensures key == masterKey && old(game).Some? ==> r == Rejected({AlreadyExists}) && game == old(game)
      ensures key == masterKey && old(game).None? ==> r == Ok(()) && game.Some? && IsNewMemory(game.value, id)
      ensures key == masterKey && old(game).None? ==> game.value.cards == Shuffled(DealtBoard(), draw)
    {
      if key == masterKey {
        if game.Some? {
          return Rejected({AlreadyExists});
        }
        var m := NewMemory(id, draw);
        game := Some(m);
        r := Ok(());
      } else {
        r := Rejected({InvalidMasterKey});
      }
    }

    /** `join`: register a player under the token; the game must exist. */
    method Join(name: string, token: Token) returns (r: Reply<Token>)
      requires Valid() && game.Some?
      modifies this`game
      ensures Valid() && game.Some?
      ensures Outcome(r, game.value) == JoinStep(old(game.value), token, name)
    {
      JoinKeepsConsistent(game.value, token, name);
      var g := game.value;
      game := Some(g.(players := g.players[token := NewPlayer(name)]));
      r := Ok(token);
    }

    /** `ready`: mark the player ready, then look for a player who is not. */
    method Ready(token: Token) returns (r: Reply<ReadyStatus>)
      requires Valid() && game.Some?
      modifies this`game
      ensures Valid() && game.Some?
      ensures Outcome(r, game.value) == ReadyStep(old(game.value), token)
    {
      ReadyKeepsConsistent(game.value, token);
      var g := game.value;
      if token !in g.players {
        return Rejected({InvalidToken});
      }
      var players := g.players[token := g.players[token].(ready := true)];
      g := g.(players := players);
      game := Some(g);
      var unchecked := players.Keys;
      while unchecked != {}
        invariant unchecked <= players.Keys
        invariant forall t :: t in players && t !in unchecked ==> players[t].ready
        invariant game == Some(g)
        decreases unchecked
      {
        var t :| t in unchecked;
        if !players[t].ready {
          return Ok(Success);
        }
        unchecked := unchecked - {t};
      }
      game := Some(g.(state := Running));
      r := Ok(Started);
    }

    /** `pick_card`: the turn and index checks, the flip, and the comparison
        with the card that lay face up before the flip. */
    method PickCard(token: Token, index: nat) returns (r: Reply<PickResponse>)
      requires Valid() && game.Some?
      modifies this`game
      ensures Valid() && game.Some?
      ensures Outcome(r, game.value) == PickStep(old(game.value), token, index)
    {
      PickKeepsConsistent(game.value, token, index);
      var g := game.value;
      if token !in g.players || !g.players[token].turn {
        return Rejected({});
      }
      var other := FirstFlipped(g.cards);
      if index >= |g.cards| || g.cards[index].flipped {
        return Rejected({});
      }
      var card := g.cards[index].(flipped := true);
      var player := g.players[token];
      if other.Some? {
        if card.img == g.cards[other.value].img {
          player := player.(points := player.points + 1);
        } else {
          player := player.(turn := false);
        }
      }
      game := Some(g.(cards := g.cards[index := card], players := g.players[token := player]));
      r := Ok(PickResponse(card.img, player.turn));
    }
  }
}
