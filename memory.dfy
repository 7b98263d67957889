/** Model of the `memory` and `icons` modules of src/lib.rs: cards, players,
    the game record, and the construction of a fresh, shuffled board. */
module MemoryGame {

  datatype Option<T> = None | Some(value: T)

  /** Number of entries of the LINKS table of image addresses. */
  const LINK_COUNT := 27
  const COLUMNS := 9
  const ROWS := 6

  /** An image is identified by its index into LINKS; the addresses themselves
      are not part of this model. */
  type Image = i: nat | i < LINK_COUNT

  datatype Card = Card(img: Image, flipped: bool)

  /** `Card::new`: a face-down card showing `img`. */
  function NewCard(img: Image): (c: Card)
    ensures c.img == img && !c.flipped
  {
    Card(img, false)
  }

  /** Players are keyed by the bearer token they were given on joining. */
  type Token = string

  datatype Player = Player(name: string, points: nat, turn: bool, ready: bool)

  /** `Player::new`: no points, not on turn, not ready. */
  function NewPlayer(name: string): (p: Player)
    ensures p.name == name && p.points == 0 && !p.turn && !p.ready
  {
    Player(name, 0, false, false)
  }

  datatype GameState = Lobby | Running | Finished

  /** The position of a state in the lifecycle Lobby, Running, Finished. */
  function Rank(s: GameState): nat
  {
    match s
    case Lobby => 0
    case Running => 1
    case Finished => 2
  }

  /** `Memory`: one game session. */
  datatype Memory = Memory(id: string, players: map<Token, Player>, state: GameState, cards: seq<Card>)

  /** The images of a board, slot by slot. */
  function Images(cards: seq<Card>): seq<Image>
  {
    seq(|cards|, k requires 0 <= k < |cards| => cards[k].img)
  }

  /** The slots of a board whose card is face up. */
  function FlippedSlots(cards: seq<Card>): set<nat>
  {
    set k | 0 <= k < |cards| && cards[k].flipped
  }

  /** A board of the size `Memory::new` builds on which every image of LINKS
      lies on exactly two slots. */
  ghost predicate PairedBoard(cards: seq<Card>)
  {
    && |cards| == COLUMNS * ROWS
    && forall img: Image :: multiset(Images(cards))[img] == 2
  }

  /** What `Memory::new(id)` promises of the game it returns. */
  ghost predicate IsNewMemory(m: Memory, id: string)
  {
    && m.id == id
    && m.players == map[]
    && m.state == Lobby
    && PairedBoard(m.cards)
    && FlippedSlots(m.cards) == {}
  }

  // ---------------------------------------------------------------------------
  // Dealing

  /** The images of the first n slots before shuffling: slot i gets LINKS[i / 2]. */
  function DealtImages(n: nat): seq<nat>
  {
    seq(n, i => i / 2)
  }

  /** The board `Memory::new` deals before shuffling. */
  function DealtBoard(): seq<Card>
  {
    seq(COLUMNS * ROWS, i requires 0 <= i < COLUMNS * ROWS => NewCard(i / 2))
  }

  /** The first k pairs of the dealt board hold images 0 .. k-1, twice each. */
  lemma {:induction false} DealtPairCount(k: nat)
    ensures forall img: nat :: multiset(DealtImages(2 * k))[img] == if img < k then 2 else 0
  {
    if k > 0 {
      DealtPairCount(k - 1);
      var prev: seq<nat> := DealtImages(2 * (k - 1));
      var pair: seq<nat> := [k - 1, k - 1];
      assert DealtImages(2 * k) == prev + pair;
      forall img: nat ensures multiset(DealtImages(2 * k))[img] == if img < k then 2 else 0 {
        var whole: multiset<nat> := multiset(DealtImages(2 * k));
        assert whole == multiset(prev) + multiset(pair);
        assert multiset(pair)[img] == if img == k - 1 then 2 else 0;
      }
    }
  }

  // ---------------------------------------------------------------------------
  // Shuffling (the slice shuffle of the `rand` crate)

  function Swap<T>(s: seq<T>, i: nat, j: nat): (r: seq<T>)
    requires i < |s| && j < |s|
  {
    s[i := s[j]][j := s[i]]
  }

  /** The slice after the shuffle has handled positions i, i-1, ..., 1: at
      position i it swaps with the index drawn from 0 .. i. The random
      generator is the parameter `draw`: the value drawn at position i is
      draw(i), reduced to the range. */
  function ShuffleDown<T>(s: seq<T>, i: nat, draw: nat -> nat): (r: seq<T>)
    requires i < |s|
    decreases i
  {
    if i == 0 then s else ShuffleDown(Swap(s, i, draw(i) % (i + 1)), i - 1, draw)
  }

  function Shuffled<T>(s: seq<T>, draw: nat -> nat): seq<T>
  {
    if |s| == 0 then s else ShuffleDown(s, |s| - 1, draw)
  }

  /** The shuffle only permutes. */
  lemma {:induction false} ShuffleDownPermutes<T>(s: seq<T>, i: nat, draw: nat -> nat)
    requires i < |s|
    ensures |ShuffleDown(s, i, draw)| == |s|
    decreases i
    ensures multiset(ShuffleDown(s, i, draw)) == multiset(s)
  {
    if i > 0 {
      var j := draw(i) % (i + 1);
      ShuffleDownPermutes(Swap(s, i, j), i - 1, draw);
      assert multiset(Swap(s, i, j)) == multiset(s);
    }
  }

  /** Shuffling a board moves cards and their images together. */
  lemma {:induction false} ShuffleDownImages(s: seq<Card>, i: nat, draw: nat -> nat)
    requires i < |s|
    ensures |ShuffleDown(s, i, draw)| == |s|
    ensures Images(ShuffleDown(s, i, draw)) == ShuffleDown(Images(s), i, draw)
    decreases i
  {
    ShuffleDownPermutes(s, i, draw);
    if i > 0 {
      var j := draw(i) % (i + 1);
      assert Images(Swap(s, i, j)) == Swap(Images(s), i, j);
      ShuffleDownImages(Swap(s, i, j), i - 1, draw);
    }
  }

  /** A shuffled board has the cards, and hence the images, of the original. */
  lemma ShuffledKeepsBoard(s: seq<Card>, draw: nat -> nat)
    ensures |Shuffled(s, draw)| == |s|
    ensures multiset(Shuffled(s, draw)) == multiset(s)
    ensures multiset(Images(Shuffled(s, draw))) == multiset(Images(s))
  {
    if |s| > 0 {
      ShuffleDownPermutes(s, |s| - 1, draw);
      ShuffleDownImages(s, |s| - 1, draw);
      ShuffleDownPermutes(Images(s), |s| - 1, draw);
    }
  }

  /** `SliceRandom::shuffle`: a Fisher-Yates pass from the last slot down. */
  method Shuffle<T>(a: array<T>, draw: nat -> nat)
    modifies a
    ensures a[..] == Shuffled(old(a[..]), draw)
  {
    if a.Length == 0 {
      return;
    }
    var i := a.Length - 1;
    while i > 0
      invariant 0 <= i < a.Length
      invariant ShuffleDown(a[..], i, draw) == Shuffled(old(a[..]), draw)
      decreases i
    {
      var j := draw(i) % (i + 1);
      ghost var before := a[..];
      a[i], a[j] := a[j], a[i];
      assert a[..] == Swap(before, i, j);
      i := i - 1;
    }
  }

  // ---------------------------------------------------------------------------
  // Memory::new

  /** `Memory::new`: deal 54 face-down cards, two consecutive slots per image,
      shuffle them, and open an empty lobby under the given id. */
  method NewMemory(id: string, draw: nat -> nat) returns (m: Memory)
    ensures IsNewMemory(m, id)
    ensures m.cards == Shuffled(DealtBoard(), draw)
  {
    var cards := new Card[COLUMNS * ROWS];
    var img := 0;
    for i := 0 to COLUMNS * ROWS
      invariant img == i / 2
      invariant forall k :: 0 <= k < i ==> cards[k] == NewCard(k / 2)
    {
      cards[i] := NewCard(img);
      if i % 2 != 0 {
        img := img + 1;
      }
    }
    ghost var dealt := cards[..];
    assert dealt == DealtBoard();
    Shuffle(cards, draw);
    m := Memory(id, map[], Lobby, cards[..]);

    ShuffledKeepsBoard(dealt, draw);
    assert Images(dealt) == DealtImages(2 * LINK_COUNT);
    DealtPairCount(LINK_COUNT);
    assert FlippedSlots(m.cards) == {} by {
      forall k | 0 <= k < |m.cards| ensures !m.cards[k].flipped {
        assert m.cards[k] in multiset(dealt);
      }
    }
  }
}
