/** The game of game.py: the roster, the bank, the board, the round counter
    and the per-round table of every player's cash, property count and
    monopoly count. Reading the board from its file is not modelled: the board
    is given as a sequence of spaces. */
module Games {
  import opened Monopolies
  import opened Players

  const MinPlayers := 2
  const MaxPlayers := 8
  const DefaultMaxRounds := 10

  /** One player's cells in one row of the table. */
  datatype Row = Row(cash: int, properties: nat, monopolies: nat)

  /** The outcome of an operation that may raise. */
  datatype Result<T> = Ok(value: T) | Raised(error: string)

  predicate LegalPlayerCount(n: int)
  {
    MinPlayers <= n <= MaxPlayers
  }

  /** The property objects on a board. */
  function BoardProperties(board: seq<Space>): set<Property>
  {
    set i | 0 <= i < |board| && board[i].PropertySpace? :: board[i].property
  }

  /** Players numbered 1, 2, ... in list order, each as a new player starts. */
  predicate Seated(ps: seq<Player>)
    reads ps
  {
    forall i :: 0 <= i < |ps| ==> ps[i].id == i + 1 && ps[i].State() == Starting()
  }

  /** The number of players that are not bankrupt. */
  function Solvent(ps: seq<Player>): (k: nat)
    reads ps
    ensures k <= |ps|
    decreases |ps|
  {
    if ps == [] then 0
    else Solvent(ps[..|ps| - 1]) + (if ps[|ps| - 1].bankrupt then 0 else 1)
  }

  lemma SolventStep(ps: seq<Player>, i: int)
    requires 0 <= i < |ps|
    ensures Solvent(ps[..i + 1]) == Solvent(ps[..i]) + (if ps[i].bankrupt then 0 else 1)
  {
    assert ps[..i + 1][..i] == ps[..i];
  }

  /** Everyone is still in the game exactly when nobody is bankrupt, and nobody
      is exactly when everyone is. */
  lemma {:induction false} SolventExtremes(ps: seq<Player>)
    ensures Solvent(ps) == |ps| <==> forall i :: 0 <= i < |ps| ==> !ps[i].bankrupt
    ensures Solvent(ps) == 0 <==> forall i :: 0 <= i < |ps| ==> ps[i].bankrupt
    decreases |ps|
  {
    if ps != [] {
      var pre := ps[..|ps| - 1];
      SolventExtremes(pre);
      assert forall i :: 0 <= i < |pre| ==> pre[i] == ps[i];
    }
  }

  /** The players' cash, added up. */
  function CashSum(ps: seq<Player>): int
    reads ps
    decreases |ps|
  {
    if ps == [] then 0 else CashSum(ps[..|ps| - 1]) + ps[|ps| - 1].cash
  }

  lemma {:induction false} CashSumOfUniform(ps: seq<Player>, amount: int)
    requires forall i :: 0 <= i < |ps| ==> ps[i].cash == amount
    ensures CashSum(ps) == amount * |ps|
    decreases |ps|
  {
    if ps != [] {
      CashSumOfUniform(ps[..|ps| - 1], amount);
    }
  }

  function RowOf(p: Player): Row
    reads p
  {
    Row(p.cash, |p.properties|, |p.monopolies|)
  }

  /** The table `t` after `update` writes round `r` for the players `ps` in
      order; a later player overwrites an earlier one with the same id. */
  function Written(t: map<(int, int), Row>, r: int, ps: seq<Player>): map<(int, int), Row>
    reads ps
    decreases |ps|
  {
    if ps == [] then t
    else Written(t, r, ps[..|ps| - 1])[(r, ps[|ps| - 1].id) := RowOf(ps[|ps| - 1])]
  }

  lemma WrittenStep(t: map<(int, int), Row>, r: int, ps: seq<Player>, i: int)
    requires 0 <= i < |ps|
    ensures Written(t, r, ps[..i + 1]) == Written(t, r, ps[..i])[(r, ps[i].id) := RowOf(ps[i])]
  {
    assert ps[..i + 1][..i] == ps[..i];
  }

  /** Writing round `r` leaves the cells of every other round alone, adds cells
      only in round `r`, and gives every player a cell in it. */
  lemma {:induction false} WrittenKeys(t: map<(int, int), Row>, r: int, ps: seq<Player>)
    ensures forall k :: k in t && k.0 != r ==> k in Written(t, r, ps) && Written(t, r, ps)[k] == t[k]
    ensures forall k :: k in Written(t, r, ps) ==> k in t || (k.0 == r && exists q :: q in ps && q.id == k.1)
    ensures forall i :: 0 <= i < |ps| ==> (r, ps[i].id) in Written(t, r, ps)
    decreases |ps|
  {
    if ps != [] {
      var pre := ps[..|ps| - 1];
      WrittenKeys(t, r, pre);
      assert forall q :: q in pre ==> q in ps;
    }
  }

  /** With distinct ids every player's cell in round `r` holds that player's own row. */
  lemma {:induction false} WrittenRowsAreSnapshots(t: map<(int, int), Row>, r: int, ps: seq<Player>)
    requires forall i, j :: 0 <= i < j < |ps| ==> ps[i].id != ps[j].id
    ensures forall i :: 0 <= i < |ps| ==>
      (r, ps[i].id) in Written(t, r, ps) && Written(t, r, ps)[(r, ps[i].id)] == RowOf(ps[i])
    decreases |ps|
  {
    if ps != [] {
      WrittenRowsAreSnapshots(t, r, ps[..|ps| - 1]);
    }
  }

  /** Every cell of table `t` belongs to a round 1..`rounds` and a player id 1..`n`. */
  predicate Fits(t: map<(int, int), Row>, rounds: int, n: int)
  {
    forall k :: k in t ==> 1 <= k.0 <= rounds && 1 <= k.1 <= n
  }

  /** A table that has only rows 1..`rounds` of players 1..|ps| keeps that shape
      when a round in range is written for players numbered 1, 2, ... in order. */
  lemma WrittenFits(t: map<(int, int), Row>, r: int, ps: seq<Player>, rounds: int)
    requires Fits(t, rounds, |ps|) && 1 <= r <= rounds
    requires forall i :: 0 <= i < |ps| ==> ps[i].id == i + 1
    ensures Fits(Written(t, r, ps), rounds, |ps|)
  {
    WrittenKeys(t, r, ps);
  }

  class Game {
    var round: int
    var players: seq<Player>
    var bank: Bank?
    const board: seq<Space>
    var playersRemaining: int
    const maxRounds: int
    /** The property objects on the board. */
    const props: set<Property>
    /** The table, keyed by (round, player id); a missing key is an unset cell. */
    var table: map<(int, int), Row>

    /** The fields `__init__` sets before it creates the players and the bank;
        `playersRemaining` is 0 until the players exist. */
    constructor (maxRounds: int, board: seq<Space>)
      ensures round == 0 && players == [] && bank == null && playersRemaining == 0 && table == map[]
      ensures this.maxRounds == maxRounds && this.board == board && props == BoardProperties(board)
    {
      round, players, bank, playersRemaining, table := 0, [], null, 0, map[];
      this.maxRounds, this.board, props := maxRounds, board, BoardProperties(board);
    }

    /** A player on the board: a position 0..39, at most a full sentence left in
        jail, and no negative number of cards. */
    static predicate OnBoard(q: Player)
      reads q
    {
      0 <= q.position < BoardSize && 0 <= q.jailTurns <= JailSentence && 0 <= q.jailCards
    }

    /** The invariant the turn loop keeps. */
    ghost predicate Valid()
      reads this, bank, players, props
    {
      && bank != null
      && |board| == BoardSize
      && (forall i :: 0 <= i < |board| && board[i].PropertySpace? ==> board[i].property in props)
      && (forall i :: 0 <= i < |players| ==> players[i].id == i + 1)
      && (forall i :: 0 <= i < |players| ==> OnBoard(players[i]))
      && (forall pr :: pr in props ==> pr.owner == null || pr.owner in players)
      && (forall i, j :: 0 <= i < |players| && 0 <= j < |players[i].properties| ==>
            players[i].properties[j] in props && players[i].properties[j].owner == players[i])
    }

    /** Creates players 1..n, or raises when n is outside 2..8. */
    method GetPlayers(n: int) returns (raised: bool)
      modifies this`players, this`playersRemaining
      ensures raised <==> !LegalPlayerCount(n)
      ensures raised ==> players == old(players) && playersRemaining == old(playersRemaining)
      ensures !raised ==> |players| == n && playersRemaining == n && Seated(players)
      ensures !raised ==> forall q :: q in players ==> fresh(q)
    {
      if n < MinPlayers || MaxPlayers < n {
        return true;
      }
      var ps: seq<Player> := [];
      var k := 1;
      while k <= n
        invariant 1 <= k <= n + 1 && |ps| == k - 1
        invariant Seated(ps)
        invariant forall q :: q in ps ==> fresh(q)
      {
        var p := new Player(k);
        ps := ps + [p];
        k := k + 1;
      }
      players, playersRemaining := ps, n;
      return false;
    }

    /** Creates the bank and takes from its reserve the cash handed to the players. */
    method GetBank(reserve: int)
      modifies this`bank
      ensures bank != null && fresh(bank)
      ensures bank.cash == reserve - playersRemaining * StartingCash
    {
      bank := new Bank(reserve);
      bank.cash := bank.cash - playersRemaining * StartingCash;
    }

    method UpdateRound()
      modifies this`round
      ensures round == old(round) + 1
    {
      round := round + 1;
    }

    /** Recounts the players still in the game and writes every player's row for
        the current round. Raises, after resetting the count, when the current
        round is not a row of the table (a lookup of a missing row). */
    method Update() returns (raised: bool)
      modifies this`playersRemaining, this`table
      ensures raised <==> |players| > 0 && !(1 <= round <= maxRounds)
      ensures raised ==> playersRemaining == |players| && table == old(table)
      ensures !raised ==> playersRemaining == Solvent(players) && table == Written(old(table), round, players)
      ensures 0 <= playersRemaining <= |players|
    {
      playersRemaining := |players|;
      // The first write looks up the row of the current round.
      if |players| > 0 && !(1 <= round <= maxRounds) {
        return true;
      }
      ghost var t0 := table;
      var i := 0;
      assert players[..0] == [];
      while i < |players|
        invariant 0 <= i <= |players|
        invariant playersRemaining == Solvent(players[..i]) + (|players| - i)
        invariant table == Written(t0, round, players[..i])
      {
        var p := players[i];
        SolventStep(players, i);
        WrittenStep(t0, round, players, i);
        table := table[(round, p.id) := Row(p.cash, |p.properties|, |p.monopolies|)];
        assert table == Written(t0, round, players[..i + 1]);
        if p.bankrupt {
          playersRemaining := playersRemaining - 1;
        }
        i := i + 1;
      }
      assert players[..i] == players;
      return false;
    }
  }

  /** `Game(max_rounds)` for a board and a bank reserve: raises for an illegal
      player count, then, with the players seated and funded from the bank,
      for a negative number of rounds, which the table cannot have as its
      number of rows. */
  method NewGame(maxRounds: int, nPlayers: int, reserve: int, board: seq<Space>) returns (r: Result<Game>)
    ensures r.Raised? <==> !LegalPlayerCount(nPlayers) || maxRounds < 0
    ensures r.Ok? ==>
      var g := r.value;
      && fresh(g) && fresh(g.bank) && (forall q :: q in g.players ==> fresh(q))
      && g.board == board && g.props == BoardProperties(board) && g.maxRounds == maxRounds && g.round == 0 && g.table == map[]
      && |g.players| == nPlayers && g.playersRemaining == nPlayers && Seated(g.players)
      && g.bank != null && g.bank.cash == reserve - nPlayers * StartingCash && g.bank.cash + CashSum(g.players) == reserve
  {
    var g := new Game(maxRounds, board);
    var raised := g.GetPlayers(nPlayers);
    if raised {
      return Raised("A game must have between 2 to 8 players.");
    }
    g.GetBank(reserve);
    if maxRounds < 0 {
      return Raised("negative dimensions are not allowed");
    }
    CashSumOfUniform(g.players, StartingCash);
    return Ok(g);
  }
}
